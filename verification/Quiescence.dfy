/** The handshake between the control thread and the audio callback over one
    atomic phase: 0 running, 1 reserved, 2 quiet at a block boundary, 3 aborted.
    Each atomic load and store is a step of its own, so any interleaving of the
    two threads is a sequence of steps. */
module Quiescence {
  /** Where the callback stands between two of its steps: `Admitted` after
      `prepare_slice` found a phase below 2, and in `finish_block` after the
      hand-over, after finding phase 1, and before the last load. */
  datatype Place = Idle | Admitted | HandedOver | FoundReserved | LastLoad

  /** `reserves` counts the reserves that succeeded, `jobs` the hand-overs;
      `quieted` and `observed` are history: the callback stored 2, the control
      thread loaded 2. */
  datatype State = State(
    phase: nat,
    place: Place,
    open: bool,
    failed: bool,
    jobs: nat,
    reserves: nat,
    quieted: bool,
    observed: bool)

  datatype Step =
    // the control thread
    | Reserve
    | Abort
    | Observe
    // the callback
    | AdmitSlice
    | OpenJob
    | HandOver
    | TestReserved
    | StoreQuiet
    | TestAborted

  /** Whether the callback is where it takes this step; the control thread always may. */
  predicate Enabled(s: State, step: Step) {
    match step
    case Reserve => true
    case Abort => true
    case Observe => true
    case AdmitSlice => s.place.Idle?
    case OpenJob => s.place.Admitted?
    case HandOver => s.place.Idle?
    case TestReserved => s.place.HandedOver?
    case StoreQuiet => s.place.FoundReserved?
    case TestAborted => s.place.LastLoad?
  }

  function Do(s: State, step: Step): State
    requires Enabled(s, step)
  {
    match step
    case Reserve => if s.phase == 0 then s.(phase := 1, reserves := s.reserves + 1) else s
    case Abort => s.(phase := 3)
    case Observe => if s.phase == 2 then s.(observed := true) else s
    case AdmitSlice => if s.phase >= 2 then s else s.(place := Admitted)
    case OpenJob => s.(open := true, place := Idle)
    case HandOver => s.(jobs := if s.open && !s.failed then s.jobs + 1 else s.jobs, open := false, place := HandedOver)
    case TestReserved => s.(place := if s.phase == 1 then FoundReserved else LastLoad)
    case StoreQuiet => s.(phase := 2, quieted := true, place := LastLoad)
    case TestAborted => s.(failed := s.failed || s.phase == 3, place := Idle)
  }

  ghost predicate Runs(s: State, steps: seq<Step>)
    decreases |steps|
  {
    steps == [] || (Enabled(s, steps[0]) && Runs(Do(s, steps[0]), steps[1..]))
  }

  function Run(s: State, steps: seq<Step>): State
    requires Runs(s, steps)
    decreases |steps|
  {
    if steps == [] then s else Run(Do(s, steps[0]), steps[1..])
  }

  const START := State(0, Idle, false, false, 0, 0, false, false)

  ghost predicate Inv(s: State) {
    && s.phase <= 3
    && s.reserves <= 1
    && (s.phase == 0 ==> s.reserves == 0)
    && (s.place.FoundReserved? ==> (s.phase == 1 || s.phase == 3) && !s.open)
    && (s.place.HandedOver? || s.place.LastLoad? ==> !s.open)
    && (s.quieted ==> s.phase >= 2 && !s.open && !s.place.Admitted? && !s.place.FoundReserved?)
    && (s.phase == 2 ==> s.quieted)
    && (s.observed ==> s.quieted)
  }

  lemma DoInv(s: State, step: Step)
    requires Inv(s) && Enabled(s, step)
    ensures Inv(Do(s, step))
    ensures s.phase >= 2 ==> Do(s, step).phase >= 2
    ensures s.quieted ==> Do(s, step).quieted && Do(s, step).jobs == s.jobs
  {
  }

  lemma {:induction false} RunInv(s: State, steps: seq<Step>)
    requires Inv(s) && Runs(s, steps)
    ensures Inv(Run(s, steps))
    ensures s.phase >= 2 ==> Run(s, steps).phase >= 2
    ensures s.quieted ==> Run(s, steps).quieted && Run(s, steps).jobs == s.jobs
    decreases |steps|
  {
    if steps != [] {
      DoInv(s, steps[0]);
      RunInv(Do(s, steps[0]), steps[1..]);
    }
  }

  lemma {:induction false} RunAppend(s: State, a: seq<Step>, b: seq<Step>)
    requires Runs(s, a) && Runs(Run(s, a), b)
    ensures Runs(s, a + b) && Run(s, a + b) == Run(Run(s, a), b)
    decreases |a|
  {
    if a == [] {
      assert a + b == b;
    } else {
      assert (a + b)[1..] == a[1..] + b;
      RunAppend(Do(s, a[0]), a[1..], b);
    }
  }

  /** In every interleaving: at most one reserve succeeds; a phase of 2 or more
      never drops below 2; once the control thread has seen 2, no job is handed
      over any more, whatever either thread does. */
  lemma QuiescenceHolds(before: seq<Step>, after: seq<Step>)
    requires Runs(START, before) && Runs(Run(START, before), after)
    ensures var s, s' := Run(START, before), Run(Run(START, before), after);
            && s'.reserves <= 1
            && (s.phase >= 2 ==> s'.phase >= 2)
            && (s.observed ==> s'.jobs == s.jobs && !s'.open)
  {
    RunInv(START, before);
    RunInv(Run(START, before), after);
  }

  /** After any store at or past 2 -- an abort in mid-block too -- at most the
      job then open, or just being opened, is still handed over. */
  lemma {:induction false} AtMostOneMore(s: State, steps: seq<Step>)
    requires Inv(s) && Runs(s, steps) && s.phase >= 2
    ensures Run(s, steps).jobs <= s.jobs + if s.open || s.place.Admitted? then 1 else 0
    decreases |steps|
  {
    if steps != [] {
      DoInv(s, steps[0]);
      AtMostOneMore(Do(s, steps[0]), steps[1..]);
    }
  }

  /** A block closed under a reservation, with no abort, makes the phase 2. */
  lemma BoundaryReached(s: State)
    requires Inv(s) && s.phase == 1 && s.place.Idle?
    ensures Runs(s, [HandOver, TestReserved, StoreQuiet])
    ensures Run(s, [HandOver, TestReserved, StoreQuiet]).phase == 2
  {
    var s1 := Do(s, HandOver);
    var s2 := Do(s1, TestReserved);
    assert [HandOver, TestReserved, StoreQuiet][1..] == [TestReserved, StoreQuiet];
    assert [TestReserved, StoreQuiet][1..] == [StoreQuiet] && [StoreQuiet][1..] == [];
    assert Runs(s2, [StoreQuiet]) && Runs(s1, [TestReserved, StoreQuiet]);
    assert Run(s2, [StoreQuiet]) == Run(Do(s2, StoreQuiet), []);
    assert Run(s1, [TestReserved, StoreQuiet]) == Run(s2, [StoreQuiet]);
  }

  /** Once the instance has failed it stays so and hands nothing over any more, in
      every interleaving; until then a block closed with a job open hands over that
      one. */
  lemma {:induction false} FailureIsFinal(s: State, steps: seq<Step>)
    requires Runs(s, steps)
    ensures s.failed ==> Run(s, steps).failed && Run(s, steps).jobs == s.jobs
    ensures !s.failed && s.open && steps != [] && steps[0] == HandOver ==>
              !Do(s, HandOver).open && Do(s, HandOver).jobs == s.jobs + 1
    decreases |steps|
  {
    if steps != [] { FailureIsFinal(Do(s, steps[0]), steps[1..]); }
  }

  /** An abort in force when a block closes fails the instance there. */
  lemma AbortFails(s: State)
    requires Inv(s) && s.phase == 3 && s.place.Idle?
    ensures Runs(s, [HandOver, TestReserved, TestAborted])
    ensures Run(s, [HandOver, TestReserved, TestAborted]).failed
  {
    Three(s, HandOver, TestReserved, TestAborted);
  }

  lemma {:induction false} StaysAborted(s: State, steps: seq<Step>)
    requires Inv(s) && s.phase == 3 && !s.place.FoundReserved? && Runs(s, steps)
    ensures Run(s, steps).phase == 3
    decreases |steps|
  {
    if steps != [] {
      DoInv(s, steps[0]);
      StaysAborted(Do(s, steps[0]), steps[1..]);
    }
  }

  /** An abort stays in force in every continuation if and only if it does not
      fall between `finish_block`'s test for a reservation and its store, which
      overwrites it. */
  lemma AbortHoldsExactly(s: State)
    requires Inv(s)
    ensures (forall steps :: Runs(Do(s, Abort), steps) ==> Run(Do(s, Abort), steps).phase == 3) <==>
            !s.place.FoundReserved?
  {
    var s' := Do(s, Abort);
    if s.place.FoundReserved? {
      assert [StoreQuiet][1..] == [];
      assert Runs(s', [StoreQuiet]);
      assert Run(s', [StoreQuiet]) == Run(Do(s', StoreQuiet), []);
      assert Run(s', [StoreQuiet]).phase == 2;
    } else {
      forall steps | Runs(s', steps) ensures Run(s', steps).phase == 3 {
        DoInv(s, Abort);
        StaysAborted(s', steps);
      }
    }
  }

  /** Such a run exists, and the callback then never fails the instance. */
  lemma LostAbort() returns (steps: seq<Step>)
    ensures Runs(START, steps) && Abort in steps
    ensures Run(START, steps).phase == 2 && Run(START, steps).place.Idle? && !Run(START, steps).failed
  {
    var a := [Reserve, HandOver, TestReserved];
    var b := [Abort, StoreQuiet, TestAborted];
    Three(START, Reserve, HandOver, TestReserved);
    Three(Run(START, a), Abort, StoreQuiet, TestAborted);
    RunAppend(START, a, b);
    steps := a + b;
    assert steps[3] == Abort;
  }

  lemma Three(s: State, a: Step, b: Step, c: Step)
    requires Enabled(s, a) && Enabled(Do(s, a), b) && Enabled(Do(Do(s, a), b), c)
    ensures Runs(s, [a, b, c]) && Run(s, [a, b, c]) == Do(Do(Do(s, a), b), c)
  {
    assert [a, b, c][1..] == [b, c] && [b, c][1..] == [c] && [c][1..] == [];
    var s1, s2 := Do(s, a), Do(Do(s, a), b);
    assert Runs(s2, [c]) && Runs(s1, [b, c]);
    assert Run(s2, [c]) == Run(Do(s2, c), []);
    assert Run(s1, [b, c]) == Run(s2, [c]);
  }
}
