/**
 * The scalar smoother of `src/kalman.rs`. Its constructor fixes
 * `gain = e / (e + m)` with `e = m`, which is one half, and `update` never
 * recomputes the gain: every update moves the estimate halfway towards the
 * new input. `estimation_error` is kept up to date but never read back.
 * Arithmetic is over the reals.
 */
module Kalman {

  const RoomTemperature: real := 25.0

  function Abs(x: real): real { if x < 0.0 then -x else x }

  /** The estimation error after one update of a gain-one-half filter whose estimate was `last`. */
  function ErrorAfter(error: real, last: real, temp: real, processVariance: real): real
  {
    0.5 * error + Abs(last - (last + temp) / 2.0) * processVariance
  }

  /** The estimate after feeding `temps`, in order, to a filter of gain one half whose estimate was `start`. */
  function EstimateFrom(start: real, temps: seq<real>): real
    decreases |temps|
  {
    if temps == [] then start
    else
      var last := EstimateFrom(start, temps[..|temps| - 1]);
      last + 0.5 * (temps[|temps| - 1] - last)
  }

  /** The estimate a freshly created filter reports after the updates `temps`. */
  function Estimate(temps: seq<real>): real
  {
    EstimateFrom(RoomTemperature, temps)
  }

  /** `n` copies of the reading `v`. */
  function Repeated(v: real, n: nat): (s: seq<real>)
    ensures |s| == n && forall i :: 0 <= i < n ==> s[i] == v
  {
    seq(n, _ => v)
  }

  function Pow2(n: nat): (r: real)
    ensures r >= 1.0
  {
    if n == 0 then 1.0 else 2.0 * Pow2(n - 1)
  }

  /** `Kalman`. The ghost `inputs` records every temperature `update` has been given. */
  class Kalman {
    var gain: real
    var processVariance: real
    var estimationError: real
    var currentEstimation: real
    var lastEstimation: real
    ghost var inputs: seq<real>

    ghost predicate Valid()
      reads this
    {
      && gain == 0.5
      && currentEstimation == lastEstimation
      && currentEstimation == Estimate(inputs)
    }

    /** `Kalman::new(measurement_error, process_variance)`. */
    constructor (measurementError: real, processVariance: real)
      requires measurementError != 0.0
      ensures Valid() && inputs == []
      ensures gain == 0.5 && estimationError == measurementError
      ensures this.processVariance == processVariance
      ensures currentEstimation == RoomTemperature && lastEstimation == RoomTemperature
    {
      var estimationError := measurementError;
      gain := estimationError / (estimationError + measurementError);
      this.processVariance := processVariance;
      this.estimationError := estimationError;
      currentEstimation := RoomTemperature;
      lastEstimation := RoomTemperature;
      inputs := [];
    }

    /** `update(temp)`: only the two estimates and the estimation error change. */
    method Update(temp: real)
      requires Valid()
      modifies this
      ensures Valid() && inputs == old(inputs) + [temp]
      ensures gain == old(gain) && processVariance == old(processVariance)
      ensures currentEstimation == lastEstimation == old(lastEstimation) + gain * (temp - old(lastEstimation))
      ensures currentEstimation == (old(lastEstimation) + temp) / 2.0
      ensures estimationError
        == (1.0 - gain) * old(estimationError) + Abs(old(lastEstimation) - currentEstimation) * processVariance
      ensures estimationError == ErrorAfter(old(estimationError), old(lastEstimation), temp, processVariance)
      ensures old(estimationError) >= 0.0 && processVariance >= 0.0 ==> estimationError >= 0.0
    {
      currentEstimation := lastEstimation + gain * (temp - lastEstimation);
      estimationError := (1.0 - gain) * estimationError + Abs(lastEstimation - currentEstimation) * processVariance;
      lastEstimation := currentEstimation;
      inputs := inputs + [temp];
      assert inputs[..|inputs| - 1] == old(inputs);
    }

    /** `value()`: depends on the inputs alone, never on the error terms. */
    function Value(): (v: real)
      reads this
      requires Valid()
      ensures v == Estimate(inputs)
    {
      currentEstimation
    }
  }

  /** Each update halves the distance between the estimate and the new reading. */
  lemma UpdateHalvesDistance(start: real, temps: seq<real>, v: real)
    ensures Abs(EstimateFrom(start, temps + [v]) - v) == Abs(EstimateFrom(start, temps) - v) / 2.0
  {
    assert (temps + [v])[..|temps|] == temps;
  }

  /** Feeding `a` and then `b` is feeding `a + b`: a filter with a history continues from its current estimate. */
  lemma {:induction false} EstimateFromAppend(start: real, a: seq<real>, b: seq<real>)
    ensures EstimateFrom(start, a + b) == EstimateFrom(EstimateFrom(start, a), b)
    decreases |b|
  {
    if b != [] {
      assert (a + b)[..|a + b| - 1] == a + b[..|b| - 1];
      EstimateFromAppend(start, a, b[..|b| - 1]);
    } else {
      assert a + b == a;
    }
  }

  lemma RepeatedStep(start: real, v: real, n: nat)
    ensures EstimateFrom(start, Repeated(v, n + 1)) == EstimateFrom(start, Repeated(v, n)) + 0.5 * (v - EstimateFrom(start, Repeated(v, n)))
  {
    assert Repeated(v, n + 1)[..n] == Repeated(v, n);
  }

  /** After `n` updates with the same reading `v`, the distance to `v` is the initial one divided by 2^n. */
  lemma {:induction false} RepeatedUpdatesConverge(start: real, v: real, n: nat)
    ensures EstimateFrom(start, Repeated(v, n)) - v == (start - v) / Pow2(n)
  {
    if n > 0 {
      RepeatedUpdatesConverge(start, v, n - 1);
      RepeatedStep(start, v, n - 1);
    }
  }

  /** Repeated updates with `v` move the estimate monotonically towards `v` and never past it. */
  lemma {:induction false} RepeatedUpdatesNeverOvershoot(start: real, v: real, n: nat)
    ensures start <= v ==>
      start <= EstimateFrom(start, Repeated(v, n)) <= EstimateFrom(start, Repeated(v, n + 1)) <= v
    ensures v <= start ==>
      start >= EstimateFrom(start, Repeated(v, n)) >= EstimateFrom(start, Repeated(v, n + 1)) >= v
  {
    RepeatedStep(start, v, n);
    if n > 0 {
      RepeatedUpdatesNeverOvershoot(start, v, n - 1);
    }
  }

  /** A filter that has already seen `history` converges to a repeated reading from wherever it stands. */
  lemma HistoryThenRepeated(history: seq<real>, v: real, n: nat)
    ensures Estimate(history + Repeated(v, n)) - v == (Estimate(history) - v) / Pow2(n)
  {
    EstimateFromAppend(RoomTemperature, history, Repeated(v, n));
    RepeatedUpdatesConverge(Estimate(history), v, n);
  }

  /** The first update after construction lands halfway between 25.0 and the reading. */
  lemma FirstUpdate(v: real)
    ensures Estimate([v]) == RoomTemperature + (v - RoomTemperature) / 2.0
  {
    assert [v][..0] == [];
    assert EstimateFrom(RoomTemperature, [v]) == EstimateFrom(RoomTemperature, []) + 0.5 * (v - RoomTemperature);
  }

  /** Three readings of 20.0 into a fresh filter give 22.5, 21.25 and 20.625. */
  lemma ThreeReadingsOfTwenty()
    ensures Estimate([20.0]) == 22.5
    ensures Estimate([20.0, 20.0]) == 21.25
    ensures Estimate([20.0, 20.0, 20.0]) == 20.625
    ensures 20.0 < Estimate([20.0, 20.0, 20.0]) < Estimate([20.0, 20.0])
  {
    assert [20.0, 20.0][..1] == [20.0];
    assert [20.0, 20.0, 20.0][..2] == [20.0, 20.0];
  }
}
