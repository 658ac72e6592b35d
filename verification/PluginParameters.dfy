/** Parameters: the instance always knows the value the plugin last got, leaves
    room for notes, and delivers every stale value within a bounded number of jobs. */
module PluginParameters {
  import opened Wrappers
  import opened PluginWire
  import opened PluginModel
  import opened PluginInvariants
  import opened PluginSteps
  import opened PluginRuns
  import opened PluginCursor
  import opened PluginStop

  ghost predicate DistinctIds(cfg: Config) {
    forall i, j :: 0 <= i < j < |cfg.parameters| ==> cfg.parameters[i].id != cfg.parameters[j].id
  }

  // ---- the mirror ----

  /** A value that passed, and whether a bus map overrules it. */
  datatype Passed = Passed(value: Float, overruled: bool)

  /** The last value of parameter `i` that passed, in either direction. */
  function Known(told: seq<Action>, cfg: Config, i: nat): Option<Passed>
    requires i < |cfg.parameters|
    decreases |told|
  {
    if told == [] then None
    else
      match told[|told| - 1]
      case Reported(index, v, mapped) =>
        if index == i then Some(Passed(Finite(v), mapped)) else Known(told[..|told| - 1], cfg, i)
      case Sent(e) =>
        if e.kind.Parameter? && IdNumber(e.id) == cfg.parameters[i].id then Some(Passed(Finite(e.value), false))
        else Known(told[..|told| - 1], cfg, i)
      case _ => Known(told[..|told| - 1], cfg, i)
  }

  /** What `sent` is to hold for a parameter: the last value that passed, or its
      default before any, or no number at all when a bus map overrules a report. */
  function Mirrored(known: Option<Passed>, default: Float): Float {
    match known
    case None => default
    case Some(p) => if p.overruled then NotANumber else p.value
  }

  ghost predicate Mirrors(cfg: Config, s: Synth, defaults: seq<Float>)
    requires |defaults| == cfg.Controls() && Shaped(cfg, s)
  {
    forall i :: 0 <= i < |cfg.parameters| ==>
      s.sent[i] == Mirrored(Known(Told(s.history.trace), cfg, i), defaults[i])
  }

  lemma KnownNext(told: seq<Action>, a: Action, cfg: Config, i: nat)
    requires i < |cfg.parameters|
    ensures Known(told + [a], cfg, i) ==
            match a {
              case Reported(index, v, mapped) => if index == i then Some(Passed(Finite(v), mapped)) else Known(told, cfg, i)
              case Sent(e) =>
                if e.kind.Parameter? && IdNumber(e.id) == cfg.parameters[i].id then Some(Passed(Finite(e.value), false))
                else Known(told, cfg, i)
              case _ => Known(told, cfg, i)
            }
  {
    assert (told + [a])[..|told|] == told;
  }

  lemma MirrorsSame(cfg: Config, s: Synth, s': Synth, defaults: seq<Float>)
    requires |defaults| == cfg.Controls() && Shaped(cfg, s) && Shaped(cfg, s')
    requires s'.sent == s.sent && Told(s'.history.trace) == Told(s.history.trace)
    ensures Mirrors(cfg, s, defaults) ==> Mirrors(cfg, s', defaults)
  {
  }

  ghost predicate MirrorInv(cfg: Config, s: Synth, defaults: seq<Float>)
    requires |defaults| == cfg.Controls() && Shaped(cfg, s)
  {
    Healthy(s) ==> Mirrors(cfg, s, defaults)
  }

  lemma BesideMirrors(cfg: Config, s: Synth, s': Synth, defaults: seq<Float>)
    requires |defaults| == cfg.Controls() && Shaped(cfg, s) && Beside(s, s') && MirrorInv(cfg, s, defaults)
    ensures Shaped(cfg, s') && MirrorInv(cfg, s', defaults)
  {
    hide Mirrors;
    if Healthy(s') { MirrorsSame(cfg, s, s', defaults); }
  }

  lemma ReceiveControlMirrors(cfg: Config, s: Synth, e: Event, defaults: seq<Float>)
    requires |defaults| == cfg.Controls() && Shaped(cfg, s) && MirrorInv(cfg, s, defaults)
    ensures var s' := ReceiveControl(cfg, s, e).0; Shaped(cfg, s') && MirrorInv(cfg, s', defaults)
  {
    hide Known, Accepts;
    var s' := ReceiveControl(cfg, s, e).0;
    if Healthy(s') {
      var index := ParameterIndex(cfg.parameters, IdNumber(e.id), 0);
      if e.kind.Parameter? && index < |cfg.parameters| {
        var a := s'.history.trace.last;
        forall i | 0 <= i < |cfg.parameters|
          ensures s'.sent[i] == Mirrored(Known(Told(s'.history.trace), cfg, i), defaults[i])
        {
          KnownNext(Told(s.history.trace), a, cfg, i);
        }
      }
    }
  }

  lemma {:induction false} ReceiveMirrors(cfg: Config, s: Synth, events: seq<Event>, defaults: seq<Float>)
    requires |defaults| == cfg.Controls() && Inv(cfg, s) && Shaped(cfg, s) && MirrorInv(cfg, s, defaults)
    ensures var s' := Receive(cfg, s, events); Shaped(cfg, s') && MirrorInv(cfg, s', defaults)
    decreases |events|
  {
    hide MirrorInv, ReceiveControl, EndLoop, Inv;
    if events != [] {
      var e := events[0];
      ReceiveControlMirrors(cfg, s, e, defaults);
      ReceiveControlInv(cfg, s, e);
      var (s1, more) := if IsControl(e) then ReceiveControl(cfg, s, e) else (s, true);
      if more {
        EndLoopInv(cfg, s1, e, 0);
        BesideMirrors(cfg, s1, EndLoop(s1, e, 0), defaults);
        ReceiveMirrors(cfg, if e.kind.NoteEnd? then EndLoop(s1, e, 0) else s1, events[1..], defaults);
      }
    }
  }

  lemma PrepareMirrors(cfg: Config, s: Synth, slice: Slice, quiet: bool, defaults: seq<Float>)
    requires |defaults| == cfg.Controls() && Good(cfg, s) && SliceValid(slice) && MirrorInv(cfg, s, defaults)
    ensures var s' := Prepare(cfg, s, slice, quiet); Shaped(cfg, s') && MirrorInv(cfg, s', defaults)
  {
    PrepareInv(cfg, s, slice, quiet);
    if !quiet {
      if !s.open {
        OpenInv(cfg, s);
        OpenJobInv(cfg, s, slice);
        OpenJobMirrors(cfg, s, slice, defaults);
      }
      hide OpenJob, ReadPorts, Inv, Mirrors;
      var s1 := if s.open then s else OpenJob(cfg, s, slice);
      MirrorsSame(cfg, s1, Fail(s1, Capacity), defaults);
      if |s1.spans| != SPANS {
        var s2 := s1.(spans := s1.spans + [SpanOf(s1, slice)]);
        StagingInv(cfg, s1, [], s2.spans);
        MirrorsSame(cfg, s1, s2, defaults);
        ReadPortsInv(cfg, s2, slice.heard, 0);
        BesideMirrors(cfg, s2, ReadPorts(cfg, s2, slice.heard, 0), defaults);
      }
    }
  }

  lemma OpenJobMirrors(cfg: Config, s: Synth, slice: Slice, defaults: seq<Float>)
    requires |defaults| == cfg.Controls() && Good(cfg, s) && !s.open && MirrorInv(cfg, s, defaults)
    ensures var s' := OpenJob(cfg, s, slice); Shaped(cfg, s') && MirrorInv(cfg, s', defaults)
  {
    var s0 := s.(open := true, job := [], spans := []);
    OpenInv(cfg, s);
    DrainShape(cfg, s0);
    RefillShape(cfg, Drain(s0));
    DrainWire(s0);
    RefillWire(Drain(s0));
    hide Drain, Refill, Receive, Inv, Mirrors;
    var s1 := Refill(Drain(s0));
    var s2 := s1.(input := Zeros(|s1.input|));
    StagingInv(cfg, s1, s2.input, []);
    MirrorsSame(cfg, s, s2, defaults);
    ReceiveMirrors(cfg, s2, slice.received, defaults);
    var s3 := Receive(cfg, s2, slice.received);
    ReceiveInv(cfg, s2, slice.received);
    MirrorsSame(cfg, s3, OpenJob(cfg, s, slice), defaults);
  }

  lemma SendParameterMirrors(cfg: Config, s: Synth, i: nat, offset: nat, defaults: seq<Float>)
    requires |defaults| == cfg.Controls() && DistinctIds(cfg) && Shaped(cfg, s) && i < |cfg.parameters|
    requires MirrorInv(cfg, s, defaults)
    ensures var s' := SendParameter(cfg, s, i, offset); Shaped(cfg, s') && MirrorInv(cfg, s', defaults)
  {
    hide Known, FloatEqual, Valid;
    var p := cfg.parameters[i];
    var s' := SendParameter(cfg, s, i, offset);
    if Healthy(s') && s'.history.trace != s.history.trace {
      var e := ParameterEvent(p, s.values[i].v, offset);
      forall k | 0 <= k < |cfg.parameters|
        ensures s'.sent[k] == Mirrored(Known(Told(s'.history.trace), cfg, k), defaults[k])
      {
        KnownNext(Told(s.history.trace), Sent(e), cfg, k);
      }
    }
  }

  lemma {:induction false} SendParametersMirrors(cfg: Config, s: Synth, offset: nat, i: nat, defaults: seq<Float>)
    requires |defaults| == cfg.Controls() && DistinctIds(cfg) && Shaped(cfg, s) && MirrorInv(cfg, s, defaults)
    ensures var s' := SendParameters(cfg, s, offset, i); Shaped(cfg, s') && MirrorInv(cfg, s', defaults)
    decreases |cfg.parameters| - i
  {
    hide MirrorInv, SendParameter;
    if i < |cfg.parameters| {
      SendParameterMirrors(cfg, s, i, offset, defaults);
      SendParametersMirrors(cfg, SendParameter(cfg, s, i, offset), offset, i + 1, defaults);
    }
  }

  lemma DoMirrors(cfg: Config, s: Synth, step: Step, defaults: seq<Float>)
    requires |defaults| == cfg.Controls() && DistinctIds(cfg) && Good(cfg, s) && StepValid(cfg, step)
    requires MirrorInv(cfg, s, defaults)
    ensures Shaped(cfg, Do(cfg, s, step)) && MirrorInv(cfg, Do(cfg, s, step), defaults)
  {
    hide Inv, PluginEvent, ReadBus, Release, Prepare, SendParameters, Stage, Mirrors;
    var s' := Do(cfg, s, step);
    DoGood(cfg, s, step);
    match step
    case Client(source, e) =>
      PluginEventInv(cfg, s, source, e);
      BesideMirrors(cfg, s, s', defaults);
    case Addressed(e) =>
      if cfg.notePorts != [] {
        ReadBusInv(cfg, s, 0, e);
        BesideMirrors(cfg, s, s', defaults);
      }
    case Stop(scope, offset) =>
      ReleaseInv(cfg, s, scope, offset);
      BesideMirrors(cfg, s, s', defaults);
    case RunSlice(slice, quiet, sounding) =>
      PrepareInv(cfg, s, slice, quiet);
      PrepareMirrors(cfg, s, slice, quiet, defaults);
      var s1 := Prepare(cfg, s, slice, quiet);
      if sounding.Some? && !sounding.value.quiet {
        var s2 := s1.(values := FollowMaps(s1, sounding.value.readings));
        MirrorsSame(cfg, s1, s2, defaults);
        SendParametersMirrors(cfg, s2, slice.offset, 0, defaults);
        MirrorsSame(cfg, SendParameters(cfg, s2, slice.offset, 0), s', defaults);
      }
    case Close(slotFree, aborted) => MirrorsSame(cfg, s, s', defaults);
    case Set(i, v) => MirrorsSame(cfg, s, s', defaults);
    case Map(i, to) => MirrorsSame(cfg, s, s', defaults);
    case Tempo(bpm) => MirrorsSame(cfg, s, s', defaults);
    case Reply => MirrorsSame(cfg, s, s', defaults);
  }

  lemma {:induction false} RunMirrors(cfg: Config, s: Synth, steps: seq<Step>, defaults: seq<Float>)
    requires |defaults| == cfg.Controls() && DistinctIds(cfg) && Good(cfg, s) && MirrorInv(cfg, s, defaults)
    requires forall i :: 0 <= i < |steps| ==> StepValid(cfg, steps[i])
    ensures MirrorInv(cfg, Run(cfg, s, steps), defaults)
    decreases |steps|
  {
    hide StepValid, Do, MirrorInv, Inv;
    if steps != [] {
      DoGood(cfg, s, steps[0]);
      DoMirrors(cfg, s, steps[0], defaults);
      RunMirrors(cfg, Do(cfg, s, steps[0]), steps[1..], defaults);
    }
  }

  /** In every run that has not failed, for each parameter: before any value
      passed `sent` is its default; once one passed, `sent` is that value if and
      only if it was not a report under a bus map, and after such a report `sent`
      is no number, so the parameter is due to be sent again whatever its value. */
  lemma SentMirrorsPlugin(cfg: Config, defaults: seq<Float>, steps: seq<Step>)
    requires cfg.Valid() && DistinctIds(cfg) && |defaults| == cfg.Controls()
    requires forall i :: 0 <= i < |steps| ==> StepValid(cfg, steps[i])
    ensures Good(cfg, Fresh(cfg, defaults))
    ensures var s := Run(cfg, Fresh(cfg, defaults), steps);
            Healthy(s) ==>
              forall i :: 0 <= i < |cfg.parameters| ==>
                match Known(Told(s.history.trace), cfg, i)
                case None => s.sent[i] == defaults[i]
                case Some(p) =>
                  && (s.sent[i] == p.value <==> !p.overruled)
                  && (p.overruled ==> s.sent[i] == NotANumber && !FloatEqual(s.sent[i], s.values[i]))
  {
    hide StepValid, Run;
    FreshGood(cfg, defaults);
    RunMirrors(cfg, Fresh(cfg, defaults), steps, defaults);
    var s := Run(cfg, Fresh(cfg, defaults), steps);
    forall i | 0 <= i < |cfg.parameters| && Known(Told(s.history.trace), cfg, i).Some?
      ensures Known(Told(s.history.trace), cfg, i).value.value.Finite?
    {
      KnownFinite(Told(s.history.trace), cfg, i);
    }
  }

  lemma {:induction false} KnownFinite(told: seq<Action>, cfg: Config, i: nat)
    requires i < |cfg.parameters|
    ensures Known(told, cfg, i).Some? ==> Known(told, cfg, i).value.value.Finite?
    decreases |told|
  {
    if told != [] { KnownFinite(told[..|told| - 1], cfg, i); }
  }

  // ---- room for notes ----

  /** Parameters never take a list past three quarters of it. */
  lemma {:induction false} LeavesRoom(cfg: Config, s: Synth, offset: nat, i: nat)
    requires Shaped(cfg, s)
    ensures var s' := SendParameters(cfg, s, offset, i);
            |s.job| <= |s'.job| <= if |s.job| > PARAMETER_EVENTS then |s.job| else PARAMETER_EVENTS
    decreases |cfg.parameters| - i
  {
    if i < |cfg.parameters| {
      LeavesRoom(cfg, SendParameter(cfg, s, i, offset), offset, i + 1);
    }
  }

  // ---- bounded delivery ----

  predicate IsStale(cfg: Config, values: seq<Float>, sent: seq<Float>, i: nat)
    requires i < |cfg.parameters| == |sent| <= |values|
  {
    (sent[i].NotANumber? || sent[i] != values[i]) && !cfg.parameters[i].readOnly
  }

  /** The parameters from `i` on the plugin does not have the value of, in order. */
  function Stale(cfg: Config, values: seq<Float>, sent: seq<Float>, i: nat): seq<nat>
    requires |cfg.parameters| == |sent| <= |values|
    decreases |cfg.parameters| - i
  {
    if i >= |cfg.parameters| then []
    else (if IsStale(cfg, values, sent, i) then [i] else []) + Stale(cfg, values, sent, i + 1)
  }

  ghost predicate InRange(cfg: Config, values: seq<Float>)
    requires |cfg.parameters| <= |values|
  {
    forall i :: 0 <= i < |cfg.parameters| && !cfg.parameters[i].readOnly ==>
      values[i].Finite? && cfg.parameters[i].min <= values[i].v <= cfg.parameters[i].max
  }

  lemma StaleBelow(cfg: Config, values: seq<Float>, sent: seq<Float>, i: nat)
    requires |cfg.parameters| == |sent| <= |values|
    ensures forall k :: k in Stale(cfg, values, sent, i) ==> i <= k < |cfg.parameters| && IsStale(cfg, values, sent, k)
    decreases |cfg.parameters| - i
  {
  }

  predicate Sendable(cfg: Config, values: seq<Float>, k: nat) {
    k < |cfg.parameters| <= |values| && values[k].Finite?
  }

  /** The event that carries the value of one parameter that can be sent. */
  function Carry(cfg: Config, values: seq<Float>, k: nat, c: nat): Event {
    if Sendable(cfg, values, k)
    then Event(c, Parameter, Number(cfg.parameters[k].id), -1, -1, -1, -1, values[k].v)
    else DefaultEvent(c, Parameter)
  }

  /** The events of frame `c` that carry the values of the given parameters. */
  function Carrying(cfg: Config, values: seq<Float>, indices: seq<nat>, c: nat): seq<Event> {
    seq(|indices|, n requires 0 <= n < |indices| => Carry(cfg, values, indices[n], c))
  }

  lemma StaleSame(cfg: Config, values: seq<Float>, sent: seq<Float>, sent': seq<Float>, i: nat)
    requires |cfg.parameters| == |sent| == |sent'| <= |values|
    requires forall k :: i <= k < |sent| ==> sent[k] == sent'[k]
    ensures Stale(cfg, values, sent, i) == Stale(cfg, values, sent', i)
    decreases |cfg.parameters| - i
  {
  }

  /** How many parameters a list of this length still takes. */
  function Quota(job: seq<Event>): nat { if |job| >= PARAMETER_EVENTS then 0 else PARAMETER_EVENTS - |job| }

  /** The job took as many of the stale parameters as its quota lets through ... */
  ghost predicate InJob(cfg: Config, values: seq<Float>, job: seq<Event>, stale: seq<nat>, job': seq<Event>,
                        c: nat)
  {
    job' == job + Carrying(cfg, values, stale[..Min(Quota(job), |stale|)], c)
  }

  /** ... and the others are still stale. */
  ghost predicate StillStale(job: seq<Event>, stale: seq<nat>, stale': seq<nat>) {
    stale' == stale[Min(Quota(job), |stale|)..]
  }

  /** `s'` is `s` once the first of the stale parameters from `i` on, as many as
      the quota lets through, are in the job. */
  ghost predicate Carried(cfg: Config, s: Synth, s': Synth, c: nat, i: nat)
    requires Shaped(cfg, s) && Shaped(cfg, s')
  {
    && InJob(cfg, s.values, s.job, Stale(cfg, s.values, s.sent, i), s'.job, c)
    && StillStale(s.job, Stale(cfg, s.values, s.sent, i), Stale(cfg, s.values, s'.sent, i))
    && (forall k :: 0 <= k < i && k < |s.sent| ==> s'.sent[k] == s.sent[k])
    && s' == s.(job := s'.job, sent := s'.sent, history := s.history.(trace := s'.history.trace))
  }

  lemma StaleSendable(cfg: Config, s: Synth, i: nat)
    requires Shaped(cfg, s) && InRange(cfg, s.values)
    ensures forall k :: k in Stale(cfg, s.values, s.sent, i) ==> Sendable(cfg, s.values, k)
  {
    StaleBelow(cfg, s.values, s.sent, i);
  }

  lemma SendStale(cfg: Config, s: Synth, c: nat, i: nat)
    requires Shaped(cfg, s) && Healthy(s) && InRange(cfg, s.values) && c < FRAMES && Behind(s.job, c) && i < |cfg.parameters|
    ensures var s' := SendParameter(cfg, s, i, c);
            && Shaped(cfg, s') && Healthy(s') && Behind(s'.job, c)
            && s' == s.(job := s'.job, sent := s'.sent, history := s.history.(trace := s'.history.trace))
            && (if IsStale(cfg, s.values, s.sent, i) && Quota(s.job) > 0
                then && Sendable(cfg, s.values, i) && s'.job == s.job + [Carry(cfg, s.values, i, c)]
                     && s'.sent == s.sent[i := s.values[i]] && !IsStale(cfg, s.values, s'.sent, i)
                else s' == s)
  {
  }

  lemma HeadInJob(cfg: Config, values: seq<Float>, job: seq<Event>, i: nat, rest: seq<nat>, job': seq<Event>,
                  c: nat)
    requires Quota(job) > 0
    requires InJob(cfg, values, job + [Carry(cfg, values, i, c)], rest, job', c)
    ensures InJob(cfg, values, job, [i] + rest, job', c)
  {
    hide Carry, Sendable;
    var m := Min(Quota(job), |rest| + 1);
    CarryingHead(cfg, values, i, rest, m, c);
    JoinHead(job, Carry(cfg, values, i, c), Carrying(cfg, values, rest[..m - 1], c));
  }

  lemma HeadStale(job: seq<Event>, e: Event, i: nat, rest: seq<nat>, stale': seq<nat>)
    requires Quota(job) > 0 && StillStale(job + [e], rest, stale')
    ensures StillStale(job, [i] + rest, stale')
  {
    var m := Min(Quota(job), |rest| + 1);
    assert ([i] + rest)[m..] == rest[m - 1..];
  }

  lemma JoinHead(a: seq<Event>, e: Event, b: seq<Event>)
    ensures (a + [e]) + b == a + ([e] + b)
  {
  }

  lemma StaleHead(cfg: Config, values: seq<Float>, sent: seq<Float>, sent': seq<Float>, i: nat)
    requires |cfg.parameters| == |sent| == |sent'| <= |values| && i < |sent| && IsStale(cfg, values, sent, i)
    requires forall k :: i < k < |sent| ==> sent[k] == sent'[k]
    ensures Stale(cfg, values, sent, i) == [i] + Stale(cfg, values, sent', i + 1)
  {
    StaleSame(cfg, values, sent, sent', i + 1);
  }

  lemma NotStale(cfg: Config, values: seq<Float>, sent: seq<Float>, sent': seq<Float>, i: nat)
    requires |cfg.parameters| == |sent| == |sent'| <= |values| && i < |cfg.parameters|
    requires sent[i] == sent'[i] && !IsStale(cfg, values, sent', i)
    ensures Stale(cfg, values, sent, i) == Stale(cfg, values, sent, i + 1)
  {
  }

  lemma CarryingHead(cfg: Config, values: seq<Float>, i: nat, rest: seq<nat>, m: nat, c: nat)
    requires 0 < m <= |rest| + 1
    ensures ([i] + rest)[m..] == rest[m - 1..]
    ensures Carrying(cfg, values, ([i] + rest)[..m], c) == [Carry(cfg, values, i, c)] + Carrying(cfg, values, rest[..m - 1], c)
  {
    hide Sendable, Carry;
    assert ([i] + rest)[..m] == [i] + rest[..m - 1];
  }

  lemma {:induction false} SendAllStale(cfg: Config, s: Synth, c: nat, i: nat)
    requires Shaped(cfg, s) && Healthy(s) && InRange(cfg, s.values) && c < FRAMES && Behind(s.job, c) && i <= |cfg.parameters|
    ensures forall k :: k in Stale(cfg, s.values, s.sent, i) ==> Sendable(cfg, s.values, k)
    ensures var s' := SendParameters(cfg, s, c, i); Shaped(cfg, s') && Carried(cfg, s, s', c, i)
    decreases |cfg.parameters| - i
  {
    hide IsStale, SendParameter, InRange, Behind, Carry, Sendable;
    StaleSendable(cfg, s, i);
    if i < |cfg.parameters| {
      SendStale(cfg, s, c, i);
      var s1 := SendParameter(cfg, s, i, c);
      SendAllStale(cfg, s1, c, i + 1);
      var s' := SendParameters(cfg, s1, c, i + 1);
      hide SendParameters, Quota, InJob, StillStale;
      assert s'.sent[i] == s1.sent[i];
      if !IsStale(cfg, s.values, s.sent, i) {
        NotStale(cfg, s.values, s.sent, s.sent, i);
        NotStale(cfg, s.values, s'.sent, s.sent, i);
      } else if Quota(s.job) == 0 {
        NoQuota(cfg, s.values, s.job, Stale(cfg, s.values, s.sent, i + 1), s'.job, Stale(cfg, s.values, s'.sent, i + 1), c);
        StaleFirst(cfg, s.values, s'.sent, s.sent, i);
        NoQuota(cfg, s.values, s.job, Stale(cfg, s.values, s.sent, i), s'.job, Stale(cfg, s.values, s'.sent, i), c);
      } else {
        var rest := Stale(cfg, s.values, s1.sent, i + 1);
        StaleHead(cfg, s.values, s.sent, s1.sent, i);
        HeadInJob(cfg, s.values, s.job, i, rest, s'.job, c);
        NotStale(cfg, s.values, s'.sent, s1.sent, i);
        HeadStale(s.job, Carry(cfg, s.values, i, c), i, rest, Stale(cfg, s.values, s'.sent, i));
      }
    } else {
      assert Carrying(cfg, s.values, [], c) == [];
      assert s.job + [] == s.job;
    }
  }

  /** With no quota left, nothing goes into the job and all stays stale. */
  lemma NoQuota(cfg: Config, values: seq<Float>, job: seq<Event>, stale: seq<nat>, job': seq<Event>, stale': seq<nat>,
                c: nat)
    requires Quota(job) == 0
    ensures InJob(cfg, values, job, stale, job', c) <==> job' == job
    ensures StillStale(job, stale, stale') <==> stale' == stale
  {
    assert job + Carrying(cfg, values, stale[..0], c) == job && stale[0..] == stale;
  }

  lemma StaleFirst(cfg: Config, values: seq<Float>, sent: seq<Float>, sent': seq<Float>, i: nat)
    requires |cfg.parameters| == |sent| == |sent'| <= |values| && i < |sent| && sent[i] == sent'[i]
    requires Stale(cfg, values, sent, i + 1) == Stale(cfg, values, sent', i + 1)
    ensures Stale(cfg, values, sent, i) == Stale(cfg, values, sent', i)
  {
  }
}
