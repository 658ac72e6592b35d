/** Parameters the plugin does not have the value of reach it in bounded time: in
    any run of blocks with no other traffic, however the engine slices them. */
module PluginDelivery {
  import opened Wrappers
  import opened PluginWire
  import opened PluginModel
  import opened PluginInvariants
  import opened PluginSteps
  import opened PluginRuns
  import opened PluginOverflow
  import opened PluginCursor
  import opened PluginStop
  import opened PluginBlock
  import opened PluginDrain
  import opened PluginParameters

  /** Every control its own, and every value one the plugin can be sent. */
  ghost predicate Unmapped(cfg: Config, s: Synth)
    requires Shaped(cfg, s)
  {
    (forall i :: 0 <= i < |s.maps| ==> s.maps[i].bus < 0) && InRange(cfg, s.values)
  }

  /** Between blocks, with nothing waiting. Notes may be held. */
  ghost predicate Idle(cfg: Config, s: Synth) {
    && Shaped(cfg, s) && Healthy(s) && !s.open && s.pending == [] && s.deferred == [] && s.tempo > 0.0
    && Unmapped(cfg, s)
  }

  /** Whether some slice is processed and not frozen. */
  predicate Sounds(steps: seq<Step>)
    decreases |steps|
  {
    steps != [] && ((steps[0].RunSlice? && steps[0].sounding.Some?) || Sounds(steps[1..]))
  }

  /** How many parameters a block takes: none if all of it is frozen. */
  function Share(sounds: bool, stale: seq<nat>): (m: nat)
    ensures m <= |stale|
  {
    if sounds then Min(PARAMETER_EVENTS, |stale|) else 0
  }

  /** `s` is inside the block that began in `s0`, and a slice was processed or not:
      once one was, the job holds the block's share of what was stale in `s0`. */
  ghost predicate InBlock(cfg: Config, s0: Synth, s: Synth, from: nat, sounds: bool)
    requires Shaped(cfg, s0)
  {
    && Shaped(cfg, s) && Healthy(s) && s.open && s.pending == [] && s.deferred == [] && Behind(s.job, from)
    && s.tempo == s0.tempo && s.values == s0.values && s.maps == s0.maps
    && s.history.delivered == s0.history.delivered && s.history.jobs == s0.history.jobs
    && var stale := Stale(cfg, s0.values, s0.sent, 0);
       var m := Share(sounds, stale);
       && Strip(s.job) == Carrying(cfg, s0.values, stale[..m], 0)
       && Stale(cfg, s.values, s.sent, 0) == stale[m..]
  }

  // ---- one slice ----

  /** From `s` to `s'` notes may have ended, and nothing else happened. */
  ghost predicate OnlyEnds(s: Synth, s': Synth) {
    && s' == s.(notes := s'.notes, ended := s'.ended, failure := s'.failure,
                history := s.history.(trace := s'.history.trace))
    && (Healthy(s') ==> Healthy(s))
  }

  lemma EndNoteEnds(s: Synth, i: nat)
    requires i < HELD_NOTES && s.notes[i].Some?
    ensures OnlyEnds(s, EndNote(s, i))
  {
  }

  lemma {:induction false} EndLoopEnds(s: Synth, e: Event, i: nat)
    ensures OnlyEnds(s, EndLoop(s, e, i))
    decreases HELD_NOTES - i
  {
    hide Ends, EndNote;
    if i < HELD_NOTES {
      EndLoopEnds(s, e, i + 1);
      if s.notes[i].Some? {
        EndNoteEnds(s, i);
        EndLoopEnds(EndNote(s, i), e, i + 1);
      }
    }
  }

  /** Reports that are not of controls only end notes. */
  lemma {:induction false} ReceiveEnds(cfg: Config, s: Synth, events: seq<Event>)
    requires Shaped(cfg, s) && forall e :: e in events ==> !IsControl(e)
    ensures OnlyEnds(s, Receive(cfg, s, events))
    decreases |events|
  {
    hide IsControl, ReceiveControl, EndLoop;
    if events != [] {
      EndLoopEnds(s, events[0], 0);
      EndLoopShape(cfg, s, events[0], 0);
      ReceiveEnds(cfg, if events[0].kind.NoteEnd? then EndLoop(s, events[0], 0) else s, events[1..]);
    }
  }

  lemma StripCarrying(cfg: Config, values: seq<Float>, indices: seq<nat>, c: nat)
    ensures Strip(Carrying(cfg, values, indices, c)) == Carrying(cfg, values, indices, 0)
  {
    hide Sendable;
  }

  lemma StripSize(es: seq<Event>)
    ensures |Strip(es)| == |es|
  {
  }

  /** The first processed slice sends the block's share, any later one nothing. */
  lemma ShareTaken(cfg: Config, values: seq<Float>, stale0: seq<nat>, sounds: bool, job: seq<Event>, job': seq<Event>,
                   stale: seq<nat>, stale': seq<nat>, c: nat)
    requires var m := Share(sounds, stale0);
             Strip(job) == Carrying(cfg, values, stale0[..m], 0) && stale == stale0[m..]
    requires InJob(cfg, values, job, stale, job', c) && StillStale(job, stale, stale')
    ensures var m := Share(true, stale0);
            Strip(job') == Carrying(cfg, values, stale0[..m], 0) && stale' == stale0[m..]
  {
    hide Carry, Strip;
    StripSize(job);
    var q := Min(Quota(job), |stale|);
    if sounds {
      assert |job| == Share(true, stale0) && q == 0 && stale' == stale;
      assert Carrying(cfg, values, stale[..0], c) == [] && job + [] == job && stale[0..] == stale;
    } else {
      assert |job| == 0 && stale == stale0 && q == Share(true, stale0);
      assert job' == Carrying(cfg, values, stale0[..q], c);
      StripCarrying(cfg, values, stale0[..q], c);
      assert stale' == stale0[q..];
    }
  }

  lemma ProcessCarries(cfg: Config, s0: Synth, s: Synth, slice: Slice, p: Sounding, sounds: bool)
    requires Shaped(cfg, s0) && Unmapped(cfg, s0) && InBlock(cfg, s0, s, slice.offset, sounds) && slice.offset < FRAMES
    requires !p.quiet && |p.readings| == |s.values| && forall b :: 0 <= b < |p.audio| ==> |p.audio[b]| == FRAMES
    ensures var s' := Process(cfg, s, slice.offset, slice.frames, p.readings, p.audio, p.quiet);
            InBlock(cfg, s0, s', slice.offset, true) && s'.spans == s.spans
  {
    hide SendParameters, Stage, InRange, Stale, Strip, InJob, StillStale, Share, Carrying, FloatEqual;
    assert FollowMaps(s, p.readings) == s.values;
    assert s.(values := s.values) == s;
    var c := slice.offset;
    SendAllStale(cfg, s, c, 0);
    var s1 := SendParameters(cfg, s, c, 0);
    SendParametersOnward(cfg, s, c, 0);
    ShareTaken(cfg, s0.values, Stale(cfg, s0.values, s0.sent, 0), sounds, s.job, s1.job,
               Stale(cfg, s.values, s.sent, 0), Stale(cfg, s.values, s1.sent, 0), c);
    ProcessBlock(cfg, s, slice, p);
  }

  lemma LaterBehind(cfg: Config, s0: Synth, s: Synth, from: nat, to: nat, sounds: bool)
    requires Shaped(cfg, s0) && InBlock(cfg, s0, s, from, sounds) && from <= to
    ensures InBlock(cfg, s0, s, to, sounds)
  {
    hide Strip, Stale, Share, Carrying;
  }

  /** A slice of an open job. */
  lemma SliceCarries(cfg: Config, s0: Synth, s: Synth, step: Step, sounds: bool)
    requires Good(cfg, s) && StepValid(cfg, step) && Silent(step) && step.slice.offset < FRAMES && |s.spans| < SPANS
    requires Shaped(cfg, s0) && Unmapped(cfg, s0) && InBlock(cfg, s0, s, step.slice.offset, sounds)
    ensures var s' := Do(cfg, s, step);
            InBlock(cfg, s0, s', step.slice.offset, sounds || step.sounding.Some?) && |s'.spans| == |s.spans| + 1
  {
    hide Inv, ReadPorts, Process, Unmapped, Stale, Strip, Share, Carrying;
    var slice := step.slice;
    var s1 := s.(spans := s.spans + [SpanOf(s, slice)]);
    ReadNothing(cfg, s1, slice.heard, 0);
    assert Prepare(cfg, s, slice, false) == s1;
    if step.sounding.Some? { ProcessCarries(cfg, s0, s1, slice, step.sounding.value, sounds); }
  }

  /** Opening the job of an idle instance puts nothing into it. */
  lemma OpensEmpty(cfg: Config, s: Synth, slice: Slice)
    requires Idle(cfg, s) && slice.offset == 0 && forall e :: e in slice.received ==> !IsControl(e)
    ensures var s' := OpenJob(cfg, s, slice);
            && (Healthy(s') ==> InBlock(cfg, s, s', 0, false))
            && Shaped(cfg, s') && s'.open && s'.spans == []
  {
    hide Receive, Stale, Unmapped, Carry;
    var s0 := s.(open := true, job := [], spans := []);
    assert Drain(s0) == s0 && Refill(s0) == s0;
    var s1 := s0.(input := Zeros(|s0.input|));
    ReceiveEnds(cfg, s1, slice.received);
    var stale := Stale(cfg, s.values, s.sent, 0);
    assert stale[..0] == [] && stale[0..] == stale;
  }

  /** The first slice of a block, which fails only if the ends of notes the plugin
      reports do not fit. */
  lemma FirstCarries(cfg: Config, s: Synth, step: Step)
    requires Good(cfg, s) && StepValid(cfg, step) && Silent(step) && step.slice.offset == 0
    requires Idle(cfg, s) && Healthy(Do(cfg, s, step))
    ensures var s' := Do(cfg, s, step); InBlock(cfg, s, s', 0, step.sounding.Some?) && |s'.spans| == 1
  {
    var slice := step.slice;
    OpensEmpty(cfg, s, slice);
    hide Inv, ReadPorts, Process, Unmapped, OpenJob, InBlock;
    var s1 := OpenJob(cfg, s, slice);
    var s2 := s1.(spans := [SpanOf(s1, slice)]);
    assert [] + [SpanOf(s1, slice)] == [SpanOf(s1, slice)];
    ReadNothing(cfg, s2, slice.heard, 0);
    assert Prepare(cfg, s, slice, false) == s2;
    if step.sounding.Some? { ProcessHealthy(cfg, s2, slice, step.sounding.value); }
    Respanned(cfg, s, s1, s2);
    if step.sounding.Some? { ProcessCarries(cfg, s, s2, slice, step.sounding.value, false); }
  }

  lemma Respanned(cfg: Config, s0: Synth, s: Synth, s': Synth)
    requires Shaped(cfg, s0) && Shaped(cfg, s) && s' == s.(spans := s'.spans) && InBlock(cfg, s0, s, 0, false)
    ensures InBlock(cfg, s0, s', 0, false)
  {
    hide Strip, Stale, Share, Carrying;
  }

  lemma ProcessHealthy(cfg: Config, s: Synth, slice: Slice, p: Sounding)
    requires Shaped(cfg, s) && !p.quiet && |p.readings| == |s.values|
    requires forall b :: 0 <= b < |p.audio| ==> |p.audio[b]| == FRAMES
    ensures Healthy(Process(cfg, s, slice.offset, slice.frames, p.readings, p.audio, p.quiet)) ==> Healthy(s)
  {
    hide SendParameters, Stage;
    ParametersBlock(cfg, s.(values := FollowMaps(s, p.readings)), slice.offset, 0);
  }

  // ---- one block ----

  lemma {:induction false} SlicesCarry(cfg: Config, s0: Synth, s: Synth, steps: seq<Step>, from: nat, sounds: bool)
    requires Good(cfg, s) && Shaped(cfg, s0) && Unmapped(cfg, s0) && InBlock(cfg, s0, s, from, sounds)
    requires SilentBlock(cfg, steps, from) && |s.spans| + |steps| <= SPANS
    ensures InBlock(cfg, s0, Run(cfg, s, steps), FRAMES, sounds || Sounds(steps))
    decreases |steps|
  {
    hide Good, StepValid, Do, Unmapped, InBlock;
    if steps != [] {
      var step := steps[0];
      EndsLater(steps[1..], from + step.slice.frames, FRAMES);
      hide Silent;
      DoGood(cfg, s, step);
      SliceCarries(cfg, s0, s, step, sounds);
      var s1 := Do(cfg, s, step);
      LaterBehind(cfg, s0, s1, from, from + step.slice.frames, sounds || step.sounding.Some?);
      SlicesCarry(cfg, s0, s1, steps[1..], from + step.slice.frames, sounds || step.sounding.Some?);
    }
  }

  lemma CloseCarries(cfg: Config, s0: Synth, s: Synth, sounds: bool)
    requires Good(cfg, s) && Idle(cfg, s0) && InBlock(cfg, s0, s, FRAMES, sounds) && Tiled(s, FRAMES) && |s.spans| > 0
    ensures var s' := Do(cfg, s, Close(true, false));
            var stale := Stale(cfg, s0.values, s0.sent, 0);
            var m := Share(sounds, stale);
            && Idle(cfg, s') && s'.values == s0.values
            && Stale(cfg, s'.values, s'.sent, 0) == stale[m..]
            && Strip(s'.history.delivered) == Strip(s0.history.delivered) + Carrying(cfg, s0.values, stale[..m], 0)
            && s'.history.jobs == s0.history.jobs + 1
  {
    hide Inv, Tiles, InRange, Stale, Share, Carrying, Strip;
    StripAppend(s.history.delivered, s.job);
  }

  /** A block whose run has not failed carries its share. */
  lemma BlockCarries(cfg: Config, s: Synth, block: seq<Step>)
    requires Good(cfg, s) && Idle(cfg, s) && SilentBlock(cfg, block, 0) && |block| <= SPANS
    requires (forall i :: 0 <= i < |Closed(block)| ==> StepValid(cfg, Closed(block)[i]))
    requires Healthy(Run(cfg, s, Closed(block)))
    ensures var s' := Run(cfg, s, Closed(block));
            var stale := Stale(cfg, s.values, s.sent, 0);
            var m := Share(Sounds(block), stale);
            && Idle(cfg, s') && s'.values == s.values
            && Stale(cfg, s'.values, s'.sent, 0) == stale[m..]
            && Strip(s'.history.delivered) == Strip(s.history.delivered) + Carrying(cfg, s.values, stale[..m], 0)
            && s'.history.jobs == s.history.jobs + 1
  {
    hide Good, StepValid, Do, InBlock, Unmapped, Stale, Share, Carrying, Strip, Tiled, Tiles;
    ClosedValid(cfg, block, 0);
    var first, rest := block[0], block[1..];
    assert Silent(first) && first.slice.frames <= FRAMES by {
      EndsLater(rest, first.slice.frames, FRAMES);
    }
    hide Silent;
    BlockFirst(cfg, block);
    DoGood(cfg, s, first);
    var s1 := Do(cfg, s, first);
    SliceTiles(cfg, s, first, 0);
    RunFirst(cfg, s, block);
    var s2 := Run(cfg, s, block);
    BlockTiles(cfg, s, block, 0, FRAMES);
    SilentAreSlices(block);
    RunAppend(cfg, s, block, [Close(true, false)]);
    RunLast(cfg, s2);
    CloseHealthy(cfg, s2);
    BlockTiles(cfg, s1, rest, first.slice.frames, FRAMES);
    FirstCarries(cfg, s, first);
    LaterBehind(cfg, s, s1, 0, first.slice.frames, first.sounding.Some?);
    SlicesCarry(cfg, s, s1, rest, first.slice.frames, first.sounding.Some?);
    NotEmpty(s2);
    CloseCarries(cfg, s, s2, Sounds(block));
  }

  lemma CloseHealthy(cfg: Config, s: Synth)
    requires Good(cfg, s)
    ensures Healthy(Do(cfg, s, Close(true, false))) ==> Healthy(s)
  {
    hide Good, SpansValid;
  }

  // ---- any number of blocks ----

  /** How many of the blocks have a processed slice. */
  function Sounding(blocks: seq<seq<Step>>): nat
    decreases |blocks|
  {
    if blocks == [] then 0 else (if Sounds(blocks[0]) then 1 else 0) + Sounding(blocks[1..])
  }

  lemma BlockEnds(cfg: Config, s: Synth, block: seq<Step>)
    requires Good(cfg, s) && s.tempo > 0.0 && !s.open && SilentBlock(cfg, block, 0)
    ensures forall i :: 0 <= i < |Closed(block)| ==> StepValid(cfg, Closed(block)[i])
    ensures var s' := Run(cfg, s, Closed(block)); s'.tempo > 0.0 && !s'.open && (Healthy(s') ==> Healthy(s))
  {
    hide Good, StepValid, Do, Silent;
    ClosedValid(cfg, block, 0);
    BlockTiles(cfg, s, block, 0, FRAMES);
    var s1 := Run(cfg, s, block);
    RunAppend(cfg, s, block, [Close(true, false)]);
    RunLast(cfg, s1);
    CloseHealthy(cfg, s1);
    CloseKeeps(cfg, s1);
  }

  lemma CloseKeeps(cfg: Config, s: Synth)
    requires Good(cfg, s)
    ensures var s' := Do(cfg, s, Close(true, false)); s'.tempo == s.tempo && !s'.open
  {
    hide Good, SpansValid;
  }

  lemma {:induction false} BlocksHealthy(cfg: Config, s: Synth, blocks: seq<seq<Step>>)
    requires Good(cfg, s) && s.tempo > 0.0 && !s.open && SilentBlocks(cfg, blocks)
    ensures forall i :: 0 <= i < |Blocks(blocks)| ==> StepValid(cfg, Blocks(blocks)[i])
    ensures Healthy(Run(cfg, s, Blocks(blocks))) ==> Healthy(s)
    decreases |blocks|
  {
    hide Good, StepValid, Do, SilentBlock;
    BlocksValid(cfg, blocks);
    if blocks != [] {
      BlockEnds(cfg, s, blocks[0]);
      BlocksHealthy(cfg, Run(cfg, s, Closed(blocks[0])), blocks[1..]);
      RunAppend(cfg, s, Closed(blocks[0]), Blocks(blocks[1..]));
    }
  }

  /** How many parameters `n` blocks take. */
  function Quotas(n: nat, stale: seq<nat>): (m: nat)
    ensures m <= |stale|
  {
    Min(n * PARAMETER_EVENTS, |stale|)
  }

  lemma SharesAdd(sounds: bool, n: nat, stale: seq<nat>)
    ensures var m := Share(sounds, stale);
            Quotas(n + if sounds then 1 else 0, stale) == m + Quotas(n, stale[m..])
  {
  }

  /** What is carried for a stretch of the stale parameters is what is carried for
      its parts. */
  lemma CarryingSplit(cfg: Config, values: seq<Float>, stale: seq<nat>, m: nat, m1: nat)
    requires m + m1 <= |stale|
    ensures stale[m..][m1..] == stale[m + m1..]
    ensures Carrying(cfg, values, stale[..m + m1], 0) ==
            Carrying(cfg, values, stale[..m], 0) + Carrying(cfg, values, stale[m..][..m1], 0)
  {
    hide Sendable, Carry;
    assert stale[..m + m1] == stale[..m] + stale[m..][..m1];
  }

  /** In any run of blocks with no new edits and no other traffic, in any slices,
      processed or frozen, that does not fail: the blocks with a processed slice,
      `n` of them, deliver the first `n` quotas of the stale parameters, in order
      and with their latest values, and nothing else is delivered. */
  lemma {:induction false} ParameterBlocksSend(cfg: Config, s: Synth, blocks: seq<seq<Step>>)
    requires Good(cfg, s) && Idle(cfg, s) && SilentBlocks(cfg, blocks)
    requires forall i :: 0 <= i < |Blocks(blocks)| ==> StepValid(cfg, Blocks(blocks)[i])
    requires Healthy(Run(cfg, s, Blocks(blocks)))
    ensures var s' := Run(cfg, s, Blocks(blocks));
            var stale := Stale(cfg, s.values, s.sent, 0);
            var m := Quotas(Sounding(blocks), stale);
            && Idle(cfg, s') && s'.values == s.values
            && Stale(cfg, s'.values, s'.sent, 0) == stale[m..]
            && Strip(s'.history.delivered) == Strip(s.history.delivered) + Carrying(cfg, s.values, stale[..m], 0)
            && s'.history.jobs == s.history.jobs + |blocks|
    decreases |blocks|
  {
    hide Good, StepValid, Do, SilentBlock, Stale, Share, Carry, Sendable, Strip, Sounds, Quotas, InRange, Carrying;
    var stale := Stale(cfg, s.values, s.sent, 0);
    if blocks == [] {
      NoneCarried(cfg, s, stale);
    } else {
      var block, rest := blocks[0], blocks[1..];
      BlockEnds(cfg, s, block);
      BlocksValid(cfg, rest);
      var s1 := Run(cfg, s, Closed(block));
      RunAppend(cfg, s, Closed(block), Blocks(rest));
      BlocksHealthy(cfg, s1, rest);
      BlockCarries(cfg, s, block);
      ParameterBlocksSend(cfg, s1, rest);
      SharesAdd(Sounds(block), Sounding(rest), stale);
      var m := Share(Sounds(block), stale);
      CarryingSplit(cfg, s.values, stale, m, Quotas(Sounding(rest), stale[m..]));
    }
  }

  lemma NoneCarried(cfg: Config, s: Synth, stale: seq<nat>)
    ensures Quotas(0, stale) == 0 && stale[0..] == stale
    ensures Strip(s.history.delivered) == Strip(s.history.delivered) + Carrying(cfg, s.values, stale[..0], 0)
  {
  }

  function JobsFor(n: nat): nat { (n + PARAMETER_EVENTS - 1) / PARAMETER_EVENTS }

  lemma QuotasEnough(n: nat, stale: seq<nat>)
    ensures Quotas(n, stale) == |stale| <==> n >= JobsFor(|stale|)
  {
    var jobs := JobsFor(|stale|);
    assert (jobs - 1) * PARAMETER_EVENTS < |stale| <= jobs * PARAMETER_EVENTS || jobs == 0 == |stale|;
  }

  lemma {:induction false} NoneStale(cfg: Config, values: seq<Float>, sent: seq<Float>, i: nat)
    requires |cfg.parameters| == |sent| <= |values| && i <= |cfg.parameters|
    ensures Stale(cfg, values, sent, i) == [] <==> forall k :: i <= k < |cfg.parameters| ==> !IsStale(cfg, values, sent, k)
    decreases |cfg.parameters| - i
  {
    hide IsStale;
    if i < |cfg.parameters| { NoneStale(cfg, values, sent, i + 1); }
  }

  /** So the plugin has every value that may be sent if and only if as many blocks
      with a processed slice went by as `N` stale parameters take at three quarters
      of a list each; then what was delivered since is just those parameters. */
  lemma StaleDelivered(cfg: Config, s: Synth, blocks: seq<seq<Step>>)
    requires Good(cfg, s) && Idle(cfg, s) && SilentBlocks(cfg, blocks)
    requires forall i :: 0 <= i < |Blocks(blocks)| ==> StepValid(cfg, Blocks(blocks)[i])
    requires Healthy(Run(cfg, s, Blocks(blocks)))
    ensures forall k :: k in Stale(cfg, s.values, s.sent, 0) ==> Sendable(cfg, s.values, k)
    ensures var s' := Run(cfg, s, Blocks(blocks));
            var stale := Stale(cfg, s.values, s.sent, 0);
            && |s'.sent| == |cfg.parameters| <= |s'.values|
            && ((forall i :: 0 <= i < |cfg.parameters| ==> !IsStale(cfg, s'.values, s'.sent, i)) <==>
                Sounding(blocks) >= JobsFor(|stale|))
            && (Sounding(blocks) >= JobsFor(|stale|) ==>
                  Strip(s'.history.delivered) == Strip(s.history.delivered) + Carrying(cfg, s.values, stale, 0))
  {
    hide Good, StepValid, Run, IsStale, Sendable, SilentBlocks, Stale, Carrying, Strip, InRange, JobsFor, Quotas;
    StaleSendable(cfg, s, 0);
    ParameterBlocksSend(cfg, s, blocks);
    var s' := Run(cfg, s, Blocks(blocks));
    var stale := Stale(cfg, s.values, s.sent, 0);
    QuotasEnough(Sounding(blocks), stale);
    NoneStale(cfg, s'.values, s'.sent, 0);
    var m := Quotas(Sounding(blocks), stale);
    assert stale[..|stale|] == stale;
    assert stale[m..] == [] <==> m == |stale|;
  }
}
