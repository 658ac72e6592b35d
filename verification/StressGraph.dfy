/** The stress generator of examples/stress.rs: a list of unit-generator records
    whose inputs name earlier records by index, and what such a list computes. */
module StressGraph {
  datatype Input = Control(control: nat) | Const(value: real) | Ugen(index: nat)

  datatype Ugen = Sine(freq: Input) | Mul(a: Input, b: Input) | Add(a: Input, b: Input) | Out(bus: Input, signal: Input)

  function Ratio(k: nat): real { 1.0 + k as real * 0.03 }

  /** Builds the list for `sines` detuned sinusoids scaled to `amp`. `acc` is the
      record holding the running sum, `next` the next free index. */
  method StressDef(sines: nat, amp: real) returns (ugens: seq<Ugen>)
    requires sines >= 1
    ensures |ugens| == 3 * sines && AllEarlier(ugens) && OneOut(ugens)
    ensures forall sine: real -> real, freq: real :: Signal(ugens, sine, freq) == amp * Sum(sine, freq, sines)
  {
    hide Value, Sum;
    ugens := [Sine(Control(0))];
    var acc, next := 0, 1;
    First(ugens);
    for k := 1 to sines
      invariant |ugens| == next == 3 * k - 2 && acc < next && AllEarlier(ugens)
      invariant forall i :: 0 <= i < |ugens| ==> !ugens[i].Out?
      invariant SumsTo(ugens, acc, k)
    {
      ghost var before, last := ugens, acc;
      ugens := ugens + [Mul(Control(0), Const(Ratio(k)))];
      ugens := ugens + [Sine(Ugen(next))];
      ugens := ugens + [Add(Ugen(acc), Ugen(next + 1))];
      acc := next + 2;
      next := next + 3;
      AddsOne(before, ugens, last, k);
    }
    ghost var before := ugens;
    ugens := ugens + [Mul(Ugen(acc), Const(amp))];
    ugens := ugens + [Out(Const(0.0), Ugen(next))];
    Scales(before, ugens, acc, sines, amp);
  }

  /** Record `acc` computes the sum of the first `k` sinusoids. */
  ghost predicate SumsTo(ugens: seq<Ugen>, acc: nat, k: nat) {
    forall sine: real -> real, freq: real :: Value(ugens, acc, sine, freq) == Sum(sine, freq, k)
  }

  ghost predicate AllEarlier(ugens: seq<Ugen>) {
    forall i :: 0 <= i < |ugens| ==> Earlier(ugens[i], i)
  }

  /** Every record an input of `u` names comes before place `i`. */
  predicate Earlier(u: Ugen, i: nat) {
    match u
    case Sine(freq) => Names(freq, i)
    case Mul(a, b) => Names(a, i) && Names(b, i)
    case Add(a, b) => Names(a, i) && Names(b, i)
    case Out(bus, signal) => Names(bus, i) && Names(signal, i)
  }

  predicate Names(input: Input, i: nat) {
    match input
    case Control(control) => control == 0
    case Const(_) => true
    case Ugen(index) => index < i
  }

  /** The last record writes bus 0, and no other writes a bus. */
  predicate OneOut(ugens: seq<Ugen>) {
    && ugens != []
    && ugens[|ugens| - 1].Out?
    && ugens[|ugens| - 1].bus == Const(0.0)
    && forall i :: 0 <= i < |ugens| - 1 ==> !ugens[i].Out?
  }

  function Read(ugens: seq<Ugen>, input: Input, i: nat, sine: real -> real, freq: real): real
    decreases i, 0
  {
    match input
    case Control(_) => freq
    case Const(value) => value
    case Ugen(index) => if index < i then Value(ugens, index, sine, freq) else 0.0
  }

  /** What record `i` computes when its control is at `freq` and `sine` is what a
      sine oscillator makes of a frequency. */
  function Value(ugens: seq<Ugen>, i: nat, sine: real -> real, freq: real): real
    decreases i, 1
  {
    if i >= |ugens| then 0.0
    else
      match ugens[i]
      case Sine(f) => sine(Read(ugens, f, i, sine, freq))
      case Mul(a, b) => Read(ugens, a, i, sine, freq) * Read(ugens, b, i, sine, freq)
      case Add(a, b) => Read(ugens, a, i, sine, freq) + Read(ugens, b, i, sine, freq)
      case Out(_, signal) => Read(ugens, signal, i, sine, freq)
  }

  /** What the last record is fed. */
  function Signal(ugens: seq<Ugen>, sine: real -> real, freq: real): real {
    if ugens == [] then 0.0 else Value(ugens, |ugens| - 1, sine, freq)
  }

  /** Three hundredths more for each sinusoid before. */
  function Detuned(k: nat): real { (100 + 3 * k) as real / 100.0 }

  lemma RatioIs(k: nat)
    ensures Ratio(k) == Detuned(k)
  {
  }

  /** The sum of `sines` sinusoids detuned by 3% steps. */
  function Sum(sine: real -> real, freq: real, sines: nat): real {
    if sines == 0 then 0.0 else Sum(sine, freq, sines - 1) + sine(freq * Detuned(sines - 1))
  }

  lemma SumStep(sine: real -> real, freq: real, k: nat, detuned: real)
    requires detuned == freq * Detuned(k)
    ensures Sum(sine, freq, k + 1) == Sum(sine, freq, k) + sine(detuned)
  {
    var more := k + 1;
    assert more - 1 == k;
  }

  lemma First(ugens: seq<Ugen>)
    requires ugens == [Sine(Control(0))]
    ensures SumsTo(ugens, 0, 1)
  {
    forall sine: real -> real, freq: real ensures Value(ugens, 0, sine, freq) == Sum(sine, freq, 1) {
      assert Detuned(0) == 1.0;
      assert Sum(sine, freq, 0) == 0.0;
      SumStep(sine, freq, 0, freq);
    }
  }

  /** More records after it change nothing a record computes. */
  lemma {:induction false} ValuePrefix(a: seq<Ugen>, b: seq<Ugen>, i: nat, sine: real -> real, freq: real)
    requires a <= b && i < |a| && AllEarlier(a)
    ensures Value(b, i, sine, freq) == Value(a, i, sine, freq)
    decreases i, 1
  {
    assert a[i] == b[i] && Earlier(a[i], i);
    match a[i]
    case Sine(f) => ReadPrefix(a, b, f, i, sine, freq);
    case Mul(x, y) =>
      ReadPrefix(a, b, x, i, sine, freq);
      ReadPrefix(a, b, y, i, sine, freq);
    case Add(x, y) =>
      ReadPrefix(a, b, x, i, sine, freq);
      ReadPrefix(a, b, y, i, sine, freq);
    case Out(_, signal) => ReadPrefix(a, b, signal, i, sine, freq);
  }

  lemma {:induction false} ReadPrefix(a: seq<Ugen>, b: seq<Ugen>, input: Input, i: nat, sine: real -> real, freq: real)
    requires a <= b && i < |a| && AllEarlier(a) && Names(input, i)
    ensures Read(b, input, i, sine, freq) == Read(a, input, i, sine, freq)
    decreases i, 0
  {
    if input.Ugen? { ValuePrefix(a, b, input.index, sine, freq); }
  }

  /** The three records one more sinusoid adds: their last is the sum so far plus
      the sine of the detuned control. */
  lemma AddsOne(a: seq<Ugen>, b: seq<Ugen>, acc: nat, k: nat)
    requires AllEarlier(a) && acc < |a| && SumsTo(a, acc, k)
    requires b == a + [Mul(Control(0), Const(Ratio(k))), Sine(Ugen(|a|)), Add(Ugen(acc), Ugen(|a| + 1))]
    ensures AllEarlier(b) && SumsTo(b, |a| + 2, k + 1)
  {
    var n := |a|;
    assert b[n] == Mul(Control(0), Const(Ratio(k)));
    assert b[n + 1] == Sine(Ugen(n));
    assert b[n + 2] == Add(Ugen(acc), Ugen(n + 1));
    var last, more := n + 2, k + 1;
    forall sine: real -> real, freq: real ensures Value(b, last, sine, freq) == Sum(sine, freq, more) {
      assert Value(a, acc, sine, freq) == Sum(sine, freq, k);
      ValuePrefix(a, b, acc, sine, freq);
      RatioIs(k);
      assert Value(b, n, sine, freq) == freq * Ratio(k);
      assert Value(b, n + 1, sine, freq) == sine(freq * Ratio(k));
      SumStep(sine, freq, k, freq * Ratio(k));
    }
  }

  lemma Scales(a: seq<Ugen>, b: seq<Ugen>, acc: nat, k: nat, amp: real)
    requires AllEarlier(a) && acc < |a| && SumsTo(a, acc, k)
    requires b == a + [Mul(Ugen(acc), Const(amp)), Out(Const(0.0), Ugen(|a|))]
    ensures AllEarlier(b)
    ensures forall sine: real -> real, freq: real :: Signal(b, sine, freq) == amp * Sum(sine, freq, k)
  {
    var n := |a|;
    assert b[n] == Mul(Ugen(acc), Const(amp));
    assert b[n + 1] == Out(Const(0.0), Ugen(n));
    forall sine: real -> real, freq: real ensures Signal(b, sine, freq) == amp * Sum(sine, freq, k) {
      assert Value(a, acc, sine, freq) == Sum(sine, freq, k);
      ValuePrefix(a, b, acc, sine, freq);
      assert Value(b, n, sine, freq) == Value(b, acc, sine, freq) * amp;
      assert Read(b, Ugen(n), n + 1, sine, freq) == Value(b, n, sine, freq);
      assert |b| - 1 == n + 1;
    }
  }
}
