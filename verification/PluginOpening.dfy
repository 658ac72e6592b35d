/** What a slice does in order: what the job it opens holds first, and what it then
    hears from its buses. */
module PluginOpening {
  import opened Wrappers
  import opened PluginWire
  import opened PluginModel
  import opened PluginInvariants
  import opened PluginSteps
  import opened PluginRuns
  import opened PluginStop

  // ---- what a new job holds ----

  ghost predicate AllBefore(a: seq<Event>, b: seq<Event>) {
    forall i, j :: 0 <= i < |a| && 0 <= j < |b| ==> a[i].offset <= b[j].offset
  }

  /** One more event enters a job that has room, if it comes after all of it. */
  lemma RefillOnce(s: Synth)
    requires s.open && IsList(s.job) && IsList(s.pending) && s.pending != [] && AllBefore(s.job, s.pending)
    ensures var s' := Place(s.(pending := s.pending[1..]), s.pending[0]).0;
            && s'.open && s'.pending == s.pending[1..] && IsList(s'.pending)
            && IsList(s'.job) && AllBefore(s'.job, s'.pending)
            && (if |s.job| < EVENTS then s'.job == s.job + [s.pending[0]] && s'.deferred == s.deferred else s'.job == s.job)
  {
    hide IsRelease, Valid;
    var e, rest := s.pending[0], s.pending[1..];
    assert forall j :: 0 <= j < |rest| ==> rest[j] == s.pending[j + 1] && e.offset <= rest[j].offset;
    assert Accepts(s.job, e) <==> |s.job| < EVENTS;
  }

  /** What was pending enters a job as far as it has room, in order. */
  lemma {:induction false} RefillTakes(s: Synth)
    requires s.open && IsList(s.job) && IsList(s.pending) && AllBefore(s.job, s.pending)
    ensures var m := Min(EVENTS - |s.job|, |s.pending|);
            Refill(s).job == s.job + s.pending[..m] && Refill(s).pending == []
    decreases |s.pending|
  {
    hide IsList, AllBefore, Place;
    Sizes(s, s);
    var m := Min(EVENTS - |s.job|, |s.pending|);
    if s.pending == [] {
      assert s.job + s.pending[..m] == s.job;
    } else {
      RefillOnce(s);
      var s' := Place(s.(pending := s.pending[1..]), s.pending[0]).0;
      Sizes(s, s');
      RefillTakes(s');
      assert Refill(s) == Refill(s');
      if |s.job| < EVENTS { SplitHead(s.job, s.pending, m); }
    }
  }

  lemma Sizes(s: Synth, s': Synth)
    requires IsList(s.job) && IsList(s'.job)
    ensures |s.job| <= EVENTS && |s'.job| <= EVENTS
  {
  }

  lemma {:induction false} EndKeepsLists(s: Synth, e: Event, i: nat)
    ensures var s' := EndLoop(s, e, i); s'.job == s.job && s'.pending == s.pending && s'.deferred == s.deferred
    decreases HELD_NOTES - i
  {
    hide Ends;
    if i < HELD_NOTES {
      if s.notes[i].Some? && Ends(e, s.notes[i].value) {
        EndKeepsLists(EndNote(s, i), e, i + 1);
      } else {
        EndKeepsLists(s, e, i + 1);
      }
    }
  }

  lemma {:induction false} ReceiveKeepsLists(cfg: Config, s: Synth, events: seq<Event>)
    requires Shaped(cfg, s)
    ensures var s' := Receive(cfg, s, events); s'.job == s.job && s'.pending == s.pending && s'.deferred == s.deferred
    decreases |events|
  {
    hide EndLoop, Accepts, IsControl;
    if events != [] {
      var e := events[0];
      var (s1, more) := if IsControl(e) then ReceiveControl(cfg, s, e) else (s, true);
      if more {
        EndKeepsLists(s1, e, 0);
        EndLoopShape(cfg, s1, e, 0);
        ReceiveKeepsLists(cfg, if e.kind.NoteEnd? then EndLoop(s1, e, 0) else s1, events[1..]);
      }
    }
  }

  /** A new job holds what was deferred and then what was pending, in order, up to 64
      events of it; nothing is pending then, and what was deferred stays so only past
      the first 64. */
  lemma OpensWith(cfg: Config, s: Synth, slice: Slice)
    requires Good(cfg, s) && !s.open
    ensures var s', waiting := OpenJob(cfg, s, slice), s.deferred + s.pending;
            && s'.job == waiting[..if |waiting| < 64 then |waiting| else 64] && s'.pending == []
            && (|waiting| <= 64 ==> s'.deferred == [])
  {
    var s0 := s.(open := true, job := [], spans := []);
    DrainShape(cfg, s0);
    RefillShape(cfg, Drain(s0));
    OpenLists(cfg, s);
    if |s.deferred| + |s.pending| <= 64 { OpenFits(cfg, s); }
    hide Drain, Refill, Receive, Inv;
    var s1 := Refill(Drain(s0));
    ReceiveKeepsLists(cfg, s1.(input := Zeros(|s1.input|)), slice.received);
  }

  lemma OpenLists(cfg: Config, s: Synth)
    requires Good(cfg, s) && !s.open
    ensures var s', waiting := Refill(Drain(s.(open := true, job := [], spans := []))), s.deferred + s.pending;
            s'.job == waiting[..if |waiting| < 64 then |waiting| else 64] && s'.pending == []
  {
    hide Table, Ring, Ledger, Valid, Drain, Refill, Shaped, Wire, AllBefore, IsList;
    var s1 := Drain(s.(open := true, job := [], spans := []));
    DrainedFirst(cfg, s);
    RefillTakes(s1);
    FirstOf(s.deferred, s.pending);
  }

  /** What a new job holds of what was deferred. */
  lemma DrainedFirst(cfg: Config, s: Synth)
    requires Good(cfg, s) && !s.open
    ensures var s1, m := Drain(s.(open := true, job := [], spans := [])), Min(64, |s.deferred|);
            && s1.job == s.deferred[..m] && s1.deferred == s.deferred[m..] && s1.pending == s.pending && s1.open
            && IsList(s1.job) && IsList(s1.pending) && AllBefore(s1.job, s1.pending)
  {
    hide Table, Ring, Ledger, Valid, Drain, Shaped;
    DrainTakes(s.(open := true, job := [], spans := []));
    var m := Min(64, |s.deferred|);
    assert [] + s.deferred[..m] == s.deferred[..m];
  }

  lemma FirstOf(a: seq<Event>, b: seq<Event>)
    ensures var m := Min(64, |a|);
            var n := Min(64 - m, |b|);
            a[..m] + b[..n] == (a + b)[..if |a + b| < 64 then |a + b| else 64]
  {
  }

  lemma {:induction false} RefillFits(s: Synth)
    requires s.open && IsList(s.job) && IsList(s.pending) && AllBefore(s.job, s.pending)
    requires |s.job| + |s.pending| <= EVENTS
    ensures Refill(s).deferred == s.deferred
    decreases |s.pending|
  {
    hide IsList, AllBefore, Place;
    if s.pending != [] {
      RefillOnce(s);
      var s' := Place(s.(pending := s.pending[1..]), s.pending[0]).0;
      RefillFits(s');
      assert Refill(s) == Refill(s');
    }
  }

  lemma OpenFits(cfg: Config, s: Synth)
    requires Good(cfg, s) && !s.open && |s.deferred| + |s.pending| <= 64
    ensures Refill(Drain(s.(open := true, job := [], spans := []))).deferred == []
  {
    hide Table, Ring, Ledger, Valid, Drain, Refill, Shaped, Wire, AllBefore, IsList;
    DrainedFirst(cfg, s);
    RefillFits(Drain(s.(open := true, job := [], spans := [])));
  }

  // ---- what a slice hears ----

  lemma {:induction false} OneMoreEvent(cfg: Config, s: Synth, port: nat, events: seq<BusEvent>, e: BusEvent)
    requires cfg.Valid()
    ensures ReadAll(cfg, s, port, events + [e]) == ReadBus(cfg, ReadAll(cfg, s, port, events), port, e)
    decreases |events|
  {
    hide ReadBus;
    if events == [] {
      assert ([] + [e])[1..] == [];
      assert ReadAll(cfg, ReadBus(cfg, s, port, e), port, []) == ReadBus(cfg, s, port, e);
    } else {
      assert (events + [e])[1..] == events[1..] + [e];
      OneMoreEvent(cfg, ReadBus(cfg, s, port, events[0]), port, events[1..], e);
    }
  }

  lemma {:induction false} OneMorePort(cfg: Config, s: Synth, heard: seq<seq<BusEvent>>, events: seq<BusEvent>, port: nat)
    requires cfg.Valid() && port <= |heard|
    ensures ReadPorts(cfg, s, heard + [events], port) == ReadAll(cfg, ReadPorts(cfg, s, heard, port), |heard|, events)
    decreases |heard| - port
  {
    hide ReadAll;
    if port < |heard| {
      OneMorePort(cfg, ReadAll(cfg, s, port, heard[port]), heard, events, port + 1);
    } else {
      assert (heard + [events])[|heard|] == events;
    }
  }

  /** What a slice hears it reads once the job is open and has its span, input by
      input and each input's events in order: hearing one event more of the last
      input is reading that event after all else, and an input that hears nothing
      changes nothing. */
  lemma HearsInOrder(cfg: Config, s: Synth, slice: Slice, events: seq<BusEvent>, e: BusEvent)
    requires cfg.Valid() && Shaped(cfg, s) && (s.open ==> |s.spans| < 8)
    ensures var port := |slice.heard|;
            && Prepare(cfg, s, slice.(heard := slice.heard + [events + [e]]), false) ==
               ReadBus(cfg, Prepare(cfg, s, slice.(heard := slice.heard + [events]), false), port, e)
            && Prepare(cfg, s, slice.(heard := slice.heard + [[]]), false) == Prepare(cfg, s, slice, false)
  {
    hide OpenJob, ReadBus, ReadPorts, ReadAll, SpanOf;
    if !s.open { OpensShort(cfg, s, slice); }
    SameOpening(cfg, s, slice, slice.heard + [events + [e]]);
    SameOpening(cfg, s, slice, slice.heard + [events]);
    SameOpening(cfg, s, slice, slice.heard + [[]]);
    var s1 := if s.open then s else OpenJob(cfg, s, slice);
    SameSpan(s1, slice, slice.heard + [events + [e]]);
    SameSpan(s1, slice, slice.heard + [events]);
    SameSpan(s1, slice, slice.heard + [[]]);
    var s2 := s1.(spans := s1.spans + [SpanOf(s1, slice)]);
    OneMorePort(cfg, s2, slice.heard, events + [e], 0);
    OneMorePort(cfg, s2, slice.heard, events, 0);
    OneMorePort(cfg, s2, slice.heard, [], 0);
    OneMoreEvent(cfg, ReadPorts(cfg, s2, slice.heard, 0), |slice.heard|, events, e);
    NothingHeard(cfg, ReadPorts(cfg, s2, slice.heard, 0), |slice.heard|);
  }

  lemma NothingHeard(cfg: Config, s: Synth, port: nat)
    requires cfg.Valid()
    ensures ReadAll(cfg, s, port, []) == s
  {
  }

  lemma SameOpening(cfg: Config, s: Synth, slice: Slice, heard: seq<seq<BusEvent>>)
    requires Shaped(cfg, s)
    ensures OpenJob(cfg, s, slice.(heard := heard)) == OpenJob(cfg, s, slice)
  {
    hide Drain, Refill, Receive;
  }

  lemma SameSpan(s: Synth, slice: Slice, heard: seq<seq<BusEvent>>)
    ensures SpanOf(s, slice.(heard := heard)) == SpanOf(s, slice)
  {
  }

  /** A job that is just open has at most one span. */
  lemma OpensShort(cfg: Config, s: Synth, slice: Slice)
    requires Shaped(cfg, s)
    ensures |OpenJob(cfg, s, slice).spans| <= 1
  {
    var s0 := s.(open := true, job := [], spans := []);
    DrainSpans(s0);
    DrainShape(cfg, s0);
    RefillShape(cfg, Drain(s0));
    RefillSpans(Drain(s0));
    hide Drain, Refill, Receive;
    var s1 := Refill(Drain(s0));
    ReceiveSpans(cfg, s1.(input := Zeros(|s1.input|)), slice.received);
  }

  lemma {:induction false} DrainSpans(s: Synth)
    ensures Drain(s).spans == s.spans
    decreases |s.deferred|
  {
    hide Accepts;
    if s.deferred != [] && Accepts(s.job, s.deferred[0]) {
      DrainSpans(s.(job := s.job + [s.deferred[0]], deferred := s.deferred[1..]));
    }
  }

  lemma {:induction false} RefillSpans(s: Synth)
    ensures Refill(s).spans == s.spans
    decreases |s.pending|
  {
    hide Accepts, IsRelease;
    if s.pending != [] && s.open { RefillSpans(Place(s.(pending := s.pending[1..]), s.pending[0]).0); }
  }

  lemma {:induction false} EndSpans(s: Synth, e: Event, i: nat)
    ensures EndLoop(s, e, i).spans == s.spans
    decreases HELD_NOTES - i
  {
    hide Ends;
    if i < HELD_NOTES {
      EndSpans(if s.notes[i].Some? && Ends(e, s.notes[i].value) then EndNote(s, i) else s, e, i + 1);
    }
  }

  lemma {:induction false} ReceiveSpans(cfg: Config, s: Synth, events: seq<Event>)
    requires Shaped(cfg, s)
    ensures Receive(cfg, s, events).spans == s.spans
    decreases |events|
  {
    hide EndLoop, Accepts, IsControl;
    if events != [] {
      var e := events[0];
      var (s1, more) := if IsControl(e) then ReceiveControl(cfg, s, e) else (s, true);
      if more {
        EndSpans(s1, e, 0);
        EndLoopShape(cfg, s1, e, 0);
        ReceiveSpans(cfg, if e.kind.NoteEnd? then EndLoop(s1, e, 0) else s1, events[1..]);
      }
    }
  }

  /** An administrative phase at or past 2 leaves the instance alone. */
  lemma QuietDoesNothing(cfg: Config, s: Synth, slice: Slice, p: Sounding)
    requires Good(cfg, s) && StepValid(cfg, RunSlice(slice, true, Some(p)))
    ensures Do(cfg, s, RunSlice(slice, true, Some(p))) == Do(cfg, s, RunSlice(slice, true, None)) == s
  {
    hide Inv;
  }
}
