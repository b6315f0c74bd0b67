/** The One-Euro smoothing filter (`filter.py`): an exponential low-pass
    filter whose cutoff frequency grows with the speed of the signal.

    `EuroStep` gives the value semantics of one call; the classes
    `LowPassFilter` and `OneEuroFilter` are the stateful objects of the source
    and each of their methods is proved to follow that semantics. */
module Filter {
  import opened Common

  /** The source's `math.pi`; only its positivity matters to the proofs. */
  const Pi: real := 3.141592653589793

  /** Time constant `1 / (2 pi cutoff)`. */
  function Tau(cutoff: real): (tau: real)
    requires cutoff > 0.0
    ensures tau > 0.0
  {
    1.0 / (2.0 * Pi * cutoff)
  }

  /** `OneEuroFilter.alpha`: the smoothing factor for a cutoff and a time step.
      A non-positive step gives 1.0 (no smoothing); otherwise the factor is
      `te / (te + tau)`, strictly between 0 and 1. */
  function Alpha(cutoff: real, te: real): (a: real)
    requires te <= 0.0 || cutoff > 0.0
    ensures te <= 0.0 ==> a == 1.0
    ensures te > 0.0 ==> 0.0 < a < 1.0 && a * (te + Tau(cutoff)) == te
  {
    if te <= 0.0 then 1.0
    else
      var tau := Tau(cutoff);
      var q := tau / te;
      assert q > 0.0;
      var a := 1.0 / (1.0 + q);
      assert a * (1.0 + q) == 1.0;
      assert a * (te + tau) == te by {
        assert tau == q * te;
        calc {
          a * (te + tau);
        == a * (te + q * te);
        == (a * (1.0 + q)) * te;
        == te;
        }
      }
      a
  }

  /** The state of a `LowPassFilter`: its last output (the source keeps it
      twice, in `__y` and in `s`, always equal) and its current factor. */
  datatype LowPass = LowPass(value: real, alpha: real)

  /** `LowPassFilter.filter`: an optional new factor replaces the stored one,
      then the output is `alpha * val + (1 - alpha) * previous`. */
  function LowPassStep(lp: LowPass, val: real, newAlpha: Option<real>): LowPass {
    var a := newAlpha.GetOr(lp.alpha);
    LowPass(a * val + (1.0 - a) * lp.value, a)
  }

  /** Constructor arguments of `OneEuroFilter`. The model admits positive
      cutoffs and a non-negative beta, the range in which the source never
      divides by zero. */
  datatype EuroParams = EuroParams(minCutoff: real, beta: real, dCutoff: real) {
    predicate Valid() { minCutoff > 0.0 && beta >= 0.0 && dCutoff > 0.0 }
  }

  /** The state of a `OneEuroFilter`: previous timestamp (`None` before the
      first sample) and its two low-pass filters. */
  datatype EuroState = EuroState(tPrev: Option<real>, x: LowPass, dx: LowPass)

  datatype EuroOut = EuroOut(state: EuroState, value: real)

  const InitialEuro := EuroState(None, LowPass(0.0, 1.0), LowPass(0.0, 1.0))

  /** The adaptive cutoff `min_cutoff + beta * |dx|`. */
  function Cutoff(p: EuroParams, dx: real): (c: real)
    requires p.Valid()
    ensures c >= p.minCutoff > 0.0
  {
    assert p.beta * Abs(dx) >= 0.0;
    p.minCutoff + p.beta * Abs(dx)
  }

  /** `OneEuroFilter.__call__(x, t)`. */
  function EuroStep(p: EuroParams, s: EuroState, x: real, t: real): EuroOut
    requires p.Valid()
  {
    match s.tPrev
    case None =>
      EuroOut(EuroState(Some(t), LowPass(x, 1.0), LowPass(0.0, 1.0)), x)
    case Some(tp) =>
      var te := t - tp;
      if te == 0.0 then
        EuroOut(EuroState(Some(t), s.x, s.dx), s.x.value)
      else
        var derivative := (x - s.x.value) / te;
        var ad := Alpha(p.dCutoff, te);
        var dx := LowPassStep(s.dx, derivative, Some(ad));
        var a := Alpha(Cutoff(p, dx.value), te);
        var xf := LowPassStep(s.x, x, Some(a));
        EuroOut(EuroState(Some(t), xf, dx), xf.value)
  }

  /** A low-pass step with a factor in [0, 1] lands between the previous
      output and the input, and no further from the input than before. */
  lemma {:induction false} LowPassBetween(lp: LowPass, val: real, a: real)
    requires 0.0 <= a <= 1.0
    ensures var out := LowPassStep(lp, val, Some(a)).value;
            Min(lp.value, val) <= out <= Max(lp.value, val)
            && Abs(out - val) <= Abs(lp.value - val)
            && (0.0 < a && lp.value != val ==> Abs(out - val) < Abs(lp.value - val))
  {
    var out := LowPassStep(lp, val, Some(a)).value;
    var d := lp.value - val;
    assert out - val == (1.0 - a) * d;
    MulNonNeg(1.0 - a, Abs(d));
    MulNonNeg(a, Abs(d));
    assert (1.0 - a) * Abs(d) + a * Abs(d) == Abs(d);
    if d >= 0.0 {
      assert Abs(out - val) == (1.0 - a) * Abs(d);
    } else {
      assert (1.0 - a) * d == -((1.0 - a) * Abs(d));
      assert Abs(out - val) == (1.0 - a) * Abs(d);
    }
    if 0.0 < a && d != 0.0 {
      MulPos(a, Abs(d));
    }
  }

  lemma {:induction false} MulNonNeg(x: real, y: real)
    requires x >= 0.0 && y >= 0.0
    ensures x * y >= 0.0
  {
  }

  lemma {:induction false} MulPos(x: real, y: real)
    requires x > 0.0 && y > 0.0
    ensures x * y > 0.0
  {
  }

  /** First sample: returned unchanged; the filter starts from it with a zero
      derivative and records the timestamp. */
  lemma {:induction false} FirstSamplePassesThrough(p: EuroParams, s: EuroState, x: real, t: real)
    requires p.Valid() && s.tPrev.None?
    ensures var o := EuroStep(p, s, x, t);
            o.value == x && o.state.tPrev == Some(t)
            && o.state.x.value == x && o.state.dx.value == 0.0
  {
  }

  /** A repeated timestamp returns the previous smoothed value and leaves both
      low-pass states as they were. */
  lemma {:induction false} ZeroStepFreezes(p: EuroParams, s: EuroState, x: real, t: real)
    requires p.Valid() && s.tPrev == Some(t)
    ensures var o := EuroStep(p, s, x, t);
            o.value == s.x.value && o.state == s
  {
  }

  /** A backwards timestamp is not frozen: both factors are 1.0, so the output
      is exactly the input, and the timestamp is overwritten. */
  lemma {:induction false} BackwardStepPassesThrough(p: EuroParams, s: EuroState, x: real, t: real)
    requires p.Valid() && s.tPrev.Some? && t < s.tPrev.value
    ensures var o := EuroStep(p, s, x, t);
            o.value == x && o.state.tPrev == Some(t)
            && o.state.x == LowPass(x, 1.0) && o.state.dx.alpha == 1.0
  {
  }

  /** A forward step smooths: the factor lies strictly in (0, 1), so the
      output lies between the previous smoothed value and the input, and moves
      strictly towards the input whenever they differ. */
  lemma {:induction false} ForwardStepIsConvex(p: EuroParams, s: EuroState, x: real, t: real)
    requires p.Valid() && s.tPrev.Some? && t > s.tPrev.value
    ensures var o := EuroStep(p, s, x, t);
            0.0 < o.state.x.alpha < 1.0
            && o.value == o.state.x.alpha * x + (1.0 - o.state.x.alpha) * s.x.value
            && Min(s.x.value, x) <= o.value <= Max(s.x.value, x)
            && (s.x.value != x ==> Abs(o.value - x) < Abs(s.x.value - x))
  {
    var o := EuroStep(p, s, x, t);
    LowPassBetween(s.x, x, o.state.x.alpha);
  }

  /** Fixed point: an input equal to the previous smoothed value comes out
      unchanged, whatever the timestamp. */
  lemma {:induction false} FixedPoint(p: EuroParams, s: EuroState, x: real, t: real)
    requires p.Valid() && s.tPrev.Some? && x == s.x.value
    ensures EuroStep(p, s, x, t).value == x
  {
    var tp := s.tPrev.value;
    if t != tp {
      var o := EuroStep(p, s, x, t);
      LowPassBetween(s.x, x, o.state.x.alpha);
    }
  }

  /** One call never moves the smoothed value away from the input: the new
      smoothed value is at least as close to `x` as the old one. */
  lemma {:induction false} StepApproachesInput(p: EuroParams, s: EuroState, x: real, t: real)
    requires p.Valid() && s.tPrev.Some?
    ensures var o := EuroStep(p, s, x, t);
            o.state.tPrev.Some? && o.value == o.state.x.value
            && Abs(o.value - x) <= Abs(s.x.value - x)
  {
    var tp := s.tPrev.value;
    if t > tp {
      ForwardStepIsConvex(p, s, x, t);
    }
  }

  /** Feeding the same input `x` at the timestamps `ts`, one call each. */
  function FeedConstant(p: EuroParams, s: EuroState, x: real, ts: seq<real>): EuroState
    requires p.Valid()
    decreases |ts|
  {
    if ts == [] then s
    else EuroStep(p, FeedConstant(p, s, x, ts[..|ts| - 1]), x, ts[|ts| - 1]).state
  }

  /** A constant input is tracked monotonically: after any number of calls, at
      any timestamps, the smoothed value is no further from the input than it
      was at the start (once the first sample has been taken). */
  lemma {:induction false} ConstantInputApproaches(p: EuroParams, s: EuroState, x: real, ts: seq<real>)
    requires p.Valid() && s.tPrev.Some?
    ensures FeedConstant(p, s, x, ts).tPrev.Some?
    ensures Abs(FeedConstant(p, s, x, ts).x.value - x) <= Abs(s.x.value - x)
    decreases |ts|
  {
    if ts != [] {
      var prev := FeedConstant(p, s, x, ts[..|ts| - 1]);
      ConstantInputApproaches(p, s, x, ts[..|ts| - 1]);
      StepApproachesInput(p, prev, x, ts[|ts| - 1]);
    }
  }

  /** Inputs confined to an interval keep the smoothed value in it: the cursor
      target always lies on screen, so the smoothed cursor does too. */
  lemma {:induction false} StaysWithinBounds(p: EuroParams, s: EuroState, x: real, t: real, lo: real, hi: real)
    requires p.Valid()
    requires lo <= x <= hi
    requires s.tPrev.Some? ==> lo <= s.x.value <= hi
    ensures var o := EuroStep(p, s, x, t);
            lo <= o.value <= hi && o.value == o.state.x.value && o.state.tPrev.Some?
  {
    if s.tPrev.Some? && t > s.tPrev.value {
      ForwardStepIsConvex(p, s, x, t);
    }
  }

  /** `LowPassFilter`. */
  class LowPassFilter {
    var y: real
    var s: real
    var alpha: real

    ghost predicate Valid()
      reads this
    {
      y == s
    }

    function State(): LowPass
      reads this
    {
      LowPass(s, alpha)
    }

    constructor (alpha: real, initVal: real)
      ensures Valid() && State() == LowPass(initVal, alpha)
    {
      this.y := initVal;
      this.s := initVal;
      this.alpha := alpha;
    }

    /** `filter(val, alpha)`. */
    method Filter(val: real, newAlpha: Option<real>) returns (r: real)
      requires Valid()
      modifies this
      ensures Valid()
      ensures State() == LowPassStep(old(State()), val, newAlpha)
      ensures r == State().value
    {
      if newAlpha.Some? {
        alpha := newAlpha.value;
      }
      var a := alpha;
      y := a * val + (1.0 - a) * s;
      s := y;
      r := y;
    }

    /** `last_value()`: the stored output `__y`, which is always `s`. */
    function LastValue(): (r: real)
      reads this
      requires Valid()
      ensures r == State().value
    {
      y
    }
  }

  /** `OneEuroFilter`: the two low-pass filters are replaced by fresh ones on
      the first sample and updated in place afterwards. */
  class OneEuroFilter {
    const minCutoff: real
    const beta: real
    const dCutoff: real
    var xFilter: LowPassFilter
    var dxFilter: LowPassFilter
    var tPrev: Option<real>
    ghost var Repr: set<object>

    ghost predicate Valid()
      reads this, Repr
    {
      && Repr == {this, xFilter, dxFilter}
      && xFilter != dxFilter
      && xFilter.Valid() && dxFilter.Valid()
      && Params().Valid()
    }

    function Params(): EuroParams
    {
      EuroParams(minCutoff, beta, dCutoff)
    }

    ghost function State(): EuroState
      reads this, Repr
      requires Valid()
    {
      EuroState(tPrev, xFilter.State(), dxFilter.State())
    }

    constructor (minCutoff: real, beta: real, dCutoff: real)
      requires EuroParams(minCutoff, beta, dCutoff).Valid()
      ensures Valid() && fresh(Repr)
      ensures Params() == EuroParams(minCutoff, beta, dCutoff)
      ensures State() == InitialEuro
    {
      this.minCutoff := minCutoff;
      this.beta := beta;
      this.dCutoff := dCutoff;
      var xf := new LowPassFilter(1.0, 0.0);
      var dxf := new LowPassFilter(1.0, 0.0);
      this.xFilter := xf;
      this.dxFilter := dxf;
      this.tPrev := None;
      Repr := {this, xf, dxf};
    }

    /** `__call__(x, t)`. */
    method Call(x: real, t: real) returns (r: real)
      requires Valid()
      modifies Repr
      ensures Valid() && fresh(Repr - old(Repr))
      ensures EuroOut(State(), r) == EuroStep(Params(), old(State()), x, t)
    {
      if tPrev.None? {
        tPrev := Some(t);
        xFilter := new LowPassFilter(1.0, x);
        dxFilter := new LowPassFilter(1.0, 0.0);
        Repr := {this, xFilter, dxFilter};
        return x;
      }
      ghost var s0 := State();
      var te := t - tPrev.value;
      tPrev := Some(t);
      if te == 0.0 {
        r := xFilter.LastValue();
        return;
      }
      var xf, dxf := xFilter, dxFilter;
      var filteredDerivative := (x - xf.LastValue()) / te;
      var ad := Alpha(dCutoff, te);
      var dx := dxf.Filter(filteredDerivative, Some(ad));
      assert xf.State() == s0.x;
      var cutoff := minCutoff + beta * Abs(dx);
      assert cutoff == Cutoff(Params(), dx);
      var a := Alpha(cutoff, te);
      r := xf.Filter(x, Some(a));
      assert dxf.State() == LowPassStep(s0.dx, filteredDerivative, Some(ad));
    }
  }
}
