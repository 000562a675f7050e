/** The 1-euro adaptive low-pass filter (Casiez, Roussel and Vogel, CHI 2012), one axis per instance. */
module OneEuro {
  import opened Common

  /** π as the shortest decimal that prints as `math.pi`; the exact value of that double differs beyond the 16th digit. */
  const Pi: real := 3.141592653589793

  /** The configuration that never changes after construction. */
  datatype FilterParams = FilterParams(minCutoff: real, beta: real, dCutoff: real)

  /** Positive cutoffs and a non-negative speed coefficient keep every division of the filter defined. */
  predicate ParamsOk(p: FilterParams) {
    p.minCutoff > 0.0 && p.beta >= 0.0 && p.dCutoff > 0.0
  }

  /** The mutable part of a filter: the current frequency and the previous sample's results. */
  datatype FilterState = FilterState(freq: real, prevX: Option<real>, prevDx: real, prevTime: Option<real>)

  /** A raw value with its optional timestamp. */
  datatype Sample = Sample(x: real, timestamp: Option<real>)

  /** `lo <= v <= hi` in whichever order the two ends come. */
  predicate Between(v: real, a: real, b: real) {
    (a <= v <= b) || (b <= v <= a)
  }

  /** The smoothing factor for cutoff frequency `cutoff` at sampling frequency `freq`. */
  function Alpha(freq: real, cutoff: real): (a: real)
    requires freq > 0.0 && cutoff > 0.0
    ensures 0.0 < a < 1.0
  {
    var tau := 1.0 / (2.0 * Pi * cutoff);
    var te := 1.0 / freq;
    assert tau / te == freq / (2.0 * Pi * cutoff);
    1.0 / (1.0 + tau / te)
  }

  /** The cutoff widened by the smoothed speed; never below the minimum cutoff. */
  function Cutoff(p: FilterParams, dxSmooth: real): (c: real)
    ensures p.beta >= 0.0 ==> c >= p.minCutoff
  {
    p.minCutoff + p.beta * Abs(dxSmooth)
  }

  /** A faster signal never gets a narrower cutoff: less smoothing, more responsiveness. */
  lemma CutoffGrowsWithSpeed(p: FilterParams, d1: real, d2: real)
    requires p.beta >= 0.0 && Abs(d1) <= Abs(d2)
    ensures Cutoff(p, d1) <= Cutoff(p, d2)
  {
    assert p.beta * (Abs(d2) - Abs(d1)) >= 0.0;
  }

  /** The frequency and stored timestamp after a sample stamped `t`. */
  function Retime(s: FilterState, t: Option<real>): (r: (real, Option<real>))
    ensures s.freq > 0.0 ==> r.0 > 0.0
    ensures t.Some? && s.prevTime.Some? ==> r.1 == t
    ensures t.None? || s.prevTime.None? ==> r == (s.freq, s.prevTime)
  {
    if t.Some? && s.prevTime.Some? then
      var te := t.value - s.prevTime.value;
      (if te > 0.0 then 1.0 / te else s.freq, t)
    else
      (s.freq, s.prevTime)
  }

  /** The raw velocity between two samples at sampling frequency `freq`. */
  function Velocity(x: real, prev: real, freq: real): real {
    (x - prev) * freq
  }

  /**
   * Exponential smoothing with weight `a` on the new value `x` and `1 - a` on the previous one, written
   * as a step of fraction `a` from `prev` toward `x` (`SmoothIsWeightedSum` gives the weighted-sum form).
   */
  function Smooth(a: real, x: real, prev: real): real {
    prev + a * (x - prev)
  }

  /** The step form is the weighted sum `a * x + (1 - a) * prev`. */
  lemma SmoothIsWeightedSum(a: real, x: real, prev: real)
    ensures Smooth(a, x, prev) == a * x + (1.0 - a) * prev
  {
  }

  /**
   * For a weight in [0, 1] the smoothed value lies between the previous and the new value; for a weight
   * in (0, 1) it is strictly closer to the new value than the previous one was, and it is a fixed point.
   */
  lemma SmoothBounds(a: real, x: real, prev: real)
    ensures 0.0 <= a <= 1.0 ==> Between(Smooth(a, x, prev), prev, x)
    ensures 0.0 < a < 1.0 && prev != x ==> Abs(Smooth(a, x, prev) - x) < Abs(prev - x)
    ensures prev == x ==> Smooth(a, x, prev) == x
  {
    if 0.0 <= a <= 1.0 {
      FractionBounds(a, x - prev);
      OffsetBounds(prev, a * (x - prev), x);
    }
    if prev == x {
      assert a * (x - prev) == 0.0;
    }
  }

  /** `lo < v < hi` in whichever order the two ends come. */
  predicate StrictlyBetween(v: real, a: real, b: real) {
    (a < v < b) || (b < v < a)
  }

  /** Moving from `base` by part of the way to `target` stays between the two, strictly closer when strictly part. */
  lemma OffsetBounds(base: real, p: real, target: real)
    ensures Between(p, 0.0, target - base) ==> Between(base + p, base, target)
    ensures StrictlyBetween(p, 0.0, target - base) ==> Abs(base + p - target) < Abs(base - target)
  {
  }

  /** A fraction of `d` lies between 0 and `d`, strictly when the fraction is strictly inside (0, 1). */
  lemma FractionBounds(a: real, d: real)
    requires 0.0 <= a <= 1.0
    ensures Between(a * d, 0.0, d)
    ensures 0.0 < a < 1.0 && d != 0.0 ==> StrictlyBetween(a * d, 0.0, d)
  {
    if d < 0.0 {
      assert a * d == -(a * (-d));
      FractionOfPositive(a, -d);
    } else {
      FractionOfPositive(a, d);
    }
  }

  lemma FractionOfPositive(a: real, d: real)
    requires 0.0 <= a <= 1.0 && 0.0 <= d
    ensures 0.0 <= a * d <= d
    ensures 0.0 < a < 1.0 && 0.0 < d ==> 0.0 < a * d < d
  {
    assert d - a * d == (1.0 - a) * d;
  }

  /** One call of the filter on the value state `s`: the new state and the filtered value. */
  function Step(p: FilterParams, s: FilterState, x: real, t: Option<real>): (r: (FilterState, real))
    requires ParamsOk(p) && s.freq > 0.0
    ensures r.0.freq > 0.0
    ensures r.0.prevX == Some(r.1)
    ensures s.prevX.None? ==> r.1 == x && r.0 == s.(prevX := Some(x), prevTime := t)
    ensures s.prevX.Some? ==> Between(r.1, s.prevX.value, x)
    ensures s.prevX.Some? && s.prevX.value != x ==> Abs(r.1 - x) < Abs(s.prevX.value - x)
    ensures s.prevX == Some(x) ==> r.1 == x
  {
    match s.prevX
    case None => (s.(prevX := Some(x), prevTime := t), x)
    case Some(px) =>
      var (freq, prevTime) := Retime(s, t);
      var dx := Velocity(x, px, freq);
      var dxSmooth := Smooth(Alpha(freq, p.dCutoff), dx, s.prevDx);
      var a := Alpha(freq, Cutoff(p, dxSmooth));
      var result := Smooth(a, x, px);
      SmoothBounds(a, x, px);
      (FilterState(freq, Some(result), dxSmooth, prevTime), result)
  }

  /** Feeding the samples one by one: the final state and every filtered value. */
  function Run(p: FilterParams, s: FilterState, samples: seq<Sample>): (r: (FilterState, seq<real>))
    requires ParamsOk(p) && s.freq > 0.0
    ensures r.0.freq > 0.0
    ensures |r.1| == |samples|
    decreases |samples|
  {
    if samples == [] then (s, [])
    else
      var (s1, y) := Step(p, s, samples[0].x, samples[0].timestamp);
      var (sn, ys) := Run(p, s1, samples[1..]);
      (sn, [y] + ys)
  }

  /**
   * Every filtered value stays in any interval holding every raw input and the previous filtered value:
   * the output is always a convex combination of values already seen.
   */
  lemma {:induction false} RunStaysInHull(p: FilterParams, s: FilterState, samples: seq<Sample>, lo: real, hi: real)
    requires ParamsOk(p) && s.freq > 0.0
    requires forall i :: 0 <= i < |samples| ==> lo <= samples[i].x <= hi
    requires s.prevX.Some? ==> lo <= s.prevX.value <= hi
    decreases |samples|
    ensures var (sn, ys) := Run(p, s, samples);
      (forall i :: 0 <= i < |ys| ==> lo <= ys[i] <= hi) &&
      (sn.prevX.Some? ==> lo <= sn.prevX.value <= hi)
  {
    if samples != [] {
      var (s1, y) := Step(p, s, samples[0].x, samples[0].timestamp);
      assert lo <= y <= hi;
      RunStaysInHull(p, s1, samples[1..], lo, hi);
      var (sn, ys) := Run(p, s1, samples[1..]);
      assert Run(p, s, samples) == (sn, [y] + ys);
      assert forall i :: 0 <= i < |ys| ==> lo <= ys[i] <= hi;
    }
  }

  /** The frequency is replaced by `1/te` exactly when both timestamps exist and `te > 0`. */
  lemma FrequencyUpdate(p: FilterParams, s: FilterState, x: real, t: Option<real>)
    requires ParamsOk(p) && s.freq > 0.0 && s.prevX.Some?
    ensures var r := Step(p, s, x, t).0;
      if t.Some? && s.prevTime.Some? && t.value - s.prevTime.value > 0.0
      then r.freq == 1.0 / (t.value - s.prevTime.value) && r.prevTime == t
      else r.freq == s.freq
  {
  }

  /**
   * A bootstrapped step, stage by stage: the frequency and timestamp come from `Retime`, the stored
   * derivative is the raw velocity smoothed at the derivative cutoff, and the stored value, which is
   * also the output, is the input blended with the previous value at the adapted cutoff.
   */
  lemma BootstrappedStep(p: FilterParams, s: FilterState, x: real, t: Option<real>)
    requires ParamsOk(p) && s.freq > 0.0 && s.prevX.Some?
    ensures var (r, y) := Step(p, s, x, t);
      && (r.freq, r.prevTime) == Retime(s, t)
      && r.prevDx == Smooth(Alpha(r.freq, p.dCutoff), Velocity(x, s.prevX.value, r.freq), s.prevDx)
      && r.prevX == Some(y)
      && y == Smooth(Alpha(r.freq, Cutoff(p, r.prevDx)), x, s.prevX.value)
  {
  }

  /** The filter state after `reset`: unbootstrapped, the frequency kept. */
  function Cleared(s: FilterState): (r: FilterState)
    ensures r.prevX.None? && r.prevTime.None? && r.prevDx == 0.0 && r.freq == s.freq
  {
    s.(prevX := None, prevDx := 0.0, prevTime := None)
  }

  /** After a reset the next sample passes through unchanged. */
  lemma ResetPassesNextSample(p: FilterParams, s: FilterState, x: real, t: Option<real>)
    requires ParamsOk(p) && s.freq > 0.0
    ensures Step(p, Cleared(s), x, t).1 == x
  {
  }

  /** One axis of the filter, updated in place on every call. */
  class OneEuroFilter {
    var freq: real
    const minCutoff: real
    const beta: real
    const dCutoff: real
    var prevX: Option<real>
    var prevDx: real
    var prevTime: Option<real>

    function Params(): FilterParams {
      FilterParams(minCutoff, beta, dCutoff)
    }

    ghost function State(): FilterState
      reads this
    {
      FilterState(freq, prevX, prevDx, prevTime)
    }

    ghost predicate Valid()
      reads this
    {
      ParamsOk(Params()) && freq > 0.0
    }

    constructor (freq: real, minCutoff: real, beta: real, dCutoff: real)
      requires freq > 0.0 && ParamsOk(FilterParams(minCutoff, beta, dCutoff))
      ensures Valid()
      ensures Params() == FilterParams(minCutoff, beta, dCutoff)
      ensures State() == FilterState(freq, None, 0.0, None)
    {
      this.freq := freq;
      this.minCutoff := minCutoff;
      this.beta := beta;
      this.dCutoff := dCutoff;
      prevX := None;
      prevDx := 0.0;
      prevTime := None;
    }

    method Filter(x: real, timestamp: Option<real>) returns (result: real)
      requires Valid()
      modifies this
      ensures Valid()
      ensures (State(), result) == Step(Params(), old(State()), x, timestamp)
    {
      if prevX.None? {
        prevX := Some(x);
        prevTime := timestamp;
        return x;
      }
      ghost var s0 := State();
      if timestamp.Some? && prevTime.Some? {
        var te := timestamp.value - prevTime.value;
        if te > 0.0 {
          freq := 1.0 / te;
        }
        prevTime := timestamp;
      }
      assert (freq, prevTime) == Retime(s0, timestamp);
      var dx := Velocity(x, prevX.value, freq);
      var dxSmooth := Smooth(Alpha(freq, dCutoff), dx, prevDx);
      var cutoff := Cutoff(Params(), dxSmooth);
      result := Smooth(Alpha(freq, cutoff), x, prevX.value);
      prevX := Some(result);
      prevDx := dxSmooth;
    }

    method Reset()
      requires Valid()
      modifies this
      ensures Valid()
      ensures State() == Cleared(old(State()))
      ensures forall x, t :: Step(Params(), State(), x, t).1 == x
    {
      prevX := None;
      prevDx := 0.0;
      prevTime := None;
    }
  }
}
