/** The two PI controllers of pi_calc.c. */
module PiCalc {
  import opened Numeric

  /** The fields of `PIControl_t`. */
  datatype Regulator = Regulator(kp: real, ki: real, iOut: real, output: real, outMax: real, outMin: real,
                   errl: real, absErrMax: real)

  /** `PID_IncPid` before its output limits: the incremental form. */
  function IncRaw(p: Regulator, err: real): real {
    p.output + Scale(p.kp, err - p.errl) + Scale(p.ki, err)
  }

  function IncErr(p: Regulator, ref: real, fbk: real): real {
    Clamp(ref - fbk, -p.absErrMax, p.absErrMax)
  }

  function IncStep(p: Regulator, ref: real, fbk: real): Regulator {
    var err := IncErr(p, ref, fbk);
    p.(output := Truncate(IncRaw(p, err), p.outMin, p.outMax), errl := err)
  }

  /** `PID_PosPid`: the integrator decays while the output is limited and integrates otherwise. */
  function PosRaw(p: Regulator, err: real): real {
    Scale(p.kp, err) + p.iOut
  }

  function PosStep(p: Regulator, ref: real, fbk: real): Regulator {
    var err := ref - fbk;
    var raw := PosRaw(p, err);
    var limited := raw > p.outMax || raw < p.outMin;
    p.(output := Truncate(raw, p.outMin, p.outMax),
       iOut := if limited then Scale(0.98, p.iOut) else p.iOut + Scale(p.ki, err))
  }

  class PIControl {
    var kp: real
    var ki: real
    var iOut: real
    var output: real
    var outMax: real
    var outMin: real
    var errl: real
    var absErrMax: real

    function Value(): Regulator
      reads this
    {
      Regulator(kp, ki, iOut, output, outMax, outMin, errl, absErrMax)
    }

    constructor (p: Regulator)
      ensures Value() == p
    {
      kp, ki, iOut, output := p.kp, p.ki, p.iOut, p.output;
      outMax, outMin, errl, absErrMax := p.outMax, p.outMin, p.errl, p.absErrMax;
    }

    /** Overwrite every field, as `memset` and the assignments after it do. */
    method Set(p: Regulator)
      modifies this
      ensures Value() == p
    {
      kp, ki, iOut, output := p.kp, p.ki, p.iOut, p.output;
      outMax, outMin, errl, absErrMax := p.outMax, p.outMin, p.errl, p.absErrMax;
    }

    method IncPid(ref: real, fbk: real) returns (out: real)
      modifies this
      ensures Value() == IncStep(old(Value()), ref, fbk)
      ensures out == output
    {
      hide Scale;
      var err := Clamp(ref - fbk, -absErrMax, absErrMax);
      output := output + Scale(kp, err - errl);
      output := output + Scale(ki, err);
      if output > outMax {
        output := outMax;
      } else if output < outMin {
        output := outMin;
      }
      errl := err;
      out := output;
    }

    method PosPid(ref: real, fbk: real) returns (out: real)
      modifies this
      ensures Value() == PosStep(old(Value()), ref, fbk)
      ensures out == output
    {
      hide Scale;
      var err := ref - fbk;
      output := Scale(kp, err);
      output := output + iOut;
      var limited := false;
      if output > outMax {
        output := outMax;
        limited := true;
      } else if output < outMin {
        output := outMin;
        limited := true;
      }
      if limited {
        iOut := Scale(0.98, iOut);
      } else {
        iOut := iOut + Scale(ki, err);
      }
      out := output;
    }
  }

  // ----- The positional controller cannot wind up ---------------------------------------

  ghost predicate Symmetric(p: Regulator) {
    p.outMin == -p.outMax && p.outMax >= 0.0
  }

  ghost predicate Contained(p: Regulator) {
    -p.outMax <= p.iOut <= p.outMax
  }

  /** Unlimited, the new integrator is a mean of the old one and the output, weighted by
      `ki / kp`. */
  lemma IntegratorIsMean(p: Regulator, err: real)
    requires p.kp > 0.0
    ensures p.iOut + Scale(p.ki, err) == p.iOut + Scale(p.ki / p.kp, PosRaw(p, err) - p.iOut)
  {
    assert (p.ki / p.kp) * p.kp == p.ki;
    assert (p.ki / p.kp) * (p.kp * err) == p.ki * err;
  }

  lemma Fraction(k: real, d: real)
    requires 0.0 <= k <= 1.0 && d >= 0.0
    ensures 0.0 <= Scale(k, d) <= d
    ensures Scale(k, -d) == -Scale(k, d)
  {
    MulOrder(0.0, k, d);
    MulOrder(k, 1.0, d);
  }

  lemma MeanBetween(x: real, y: real, k: real, m: real)
    requires 0.0 <= k <= 1.0 && -m <= x <= m && -m <= y <= m
    ensures -m <= x + Scale(k, y - x) <= m
  {
    hide Scale;
    if x <= y {
      Fraction(k, y - x);
    } else {
      Fraction(k, x - y);
      assert y - x == -(x - y);
    }
  }

  lemma GainRatio(p: Regulator)
    requires p.kp > 0.0
    ensures 0.0 <= p.ki <= p.kp <==> 0.0 <= p.ki / p.kp <= 1.0
  {
    var k := p.ki / p.kp;
    assert Scale(p.kp, k) == p.ki && Scale(p.kp, 0.0) == 0.0 && Scale(p.kp, 1.0) == p.kp;
    ScaleStrict(p.kp, k, 0.0);
    ScaleStrict(p.kp, 1.0, k);
  }

  lemma PosContained(p: Regulator, ref: real, fbk: real)
    requires p.kp > 0.0 && 0.0 <= p.ki <= p.kp && Symmetric(p) && Contained(p)
    ensures Contained(PosStep(p, ref, fbk)) && Symmetric(PosStep(p, ref, fbk))
  {
    var err := ref - fbk;
    IntegratorIsMean(p, err);
    GainRatio(p);
    var raw := PosRaw(p, err);
    if p.outMin <= raw <= p.outMax {
      MeanBetween(p.iOut, raw, p.ki / p.kp, p.outMax);
    }
    hide PosRaw;
  }

  /** Every call on every contained integrator leaves it contained exactly when the integral
      gain lies between zero and the proportional gain. */
  lemma PosContainedIff(p: Regulator)
    requires p.kp > 0.0 && Symmetric(p) && p.outMax > 0.0
    ensures 0.0 <= p.ki <= p.kp <==>
            forall i, ref, fbk :: -p.outMax <= i <= p.outMax ==> Contained(PosStep(p.(iOut := i), ref, fbk))
  {
    if 0.0 <= p.ki <= p.kp {
      forall i, ref, fbk | -p.outMax <= i <= p.outMax
        ensures Contained(PosStep(p.(iOut := i), ref, fbk))
      {
        PosContained(p.(iOut := i), ref, fbk);
      }
    } else {
      GainRatio(p);
      var i := if p.ki < 0.0 then p.outMax else -p.outMax;
      var ref := (-2.0 * i) / p.kp;
      var q := p.(iOut := i);
      assert Scale(p.kp, ref - 0.0) == -2.0 * i;
      assert PosRaw(q, ref - 0.0) == -i;
      IntegratorIsMean(q, ref - 0.0);
      EscapesInterval(i, p.outMax, p.ki / p.kp);
      hide Scale;
      assert !Contained(PosStep(q, ref, 0.0));
    }
  }

  lemma EscapesInterval(i: real, m: real, k: real)
    requires m > 0.0 && ((i == m && k < 0.0) || (i == -m && k > 1.0))
    ensures !(-m <= i + Scale(k, -i - i) <= m)
  {
    assert Scale(k, m + m) == Scale(k, m) + Scale(k, m);
    assert Scale(k, -m - m) == -Scale(k, m) - Scale(k, m);
    if k < 0.0 {
      assert k * m < 0.0;
    } else {
      assert (k - 1.0) * m > 0.0;
      assert Scale(k, m) > m;
    }
  }

  /** One call of the speed loop: reference and feedback. */
  datatype Call = Call(ref: real, fbk: real)

  function PosRun(p: Regulator, calls: seq<Call>): Regulator
    decreases |calls|
  {
    if calls == [] then p else
      var last := |calls| - 1;
      PosStep(PosRun(p, calls[..last]), calls[last].ref, calls[last].fbk)
  }

  /** No error sequence winds the integrator up. */
  lemma {:induction false} PosNeverWindsUp(p: Regulator, calls: seq<Call>)
    requires p.kp > 0.0 && 0.0 <= p.ki <= p.kp && Symmetric(p) && Contained(p)
    ensures var q := PosRun(p, calls);
            Contained(q) && q.kp == p.kp && q.ki == p.ki && q.outMax == p.outMax && q.outMin == p.outMin
    decreases |calls|
  {
    if calls != [] {
      var last := |calls| - 1;
      PosNeverWindsUp(p, calls[..last]);
      PosContained(PosRun(p, calls[..last]), calls[last].ref, calls[last].fbk);
    }
  }

  // ----- The incremental controller is a PI controller ----------------------------------

  function IncRun(p: Regulator, calls: seq<Call>): Regulator
    decreases |calls|
  {
    if calls == [] then p else
      var last := |calls| - 1;
      IncStep(IncRun(p, calls[..last]), calls[last].ref, calls[last].fbk)
  }

  /** The sum of the clamped errors. */
  function ErrSum(p: Regulator, calls: seq<Call>): real
    decreases |calls|
  {
    if calls == [] then 0.0 else
      var last := |calls| - 1;
      ErrSum(p, calls[..last]) + IncErr(p, calls[last].ref, calls[last].fbk)
  }

  /** No call of the run reaches an output limit. */
  ghost predicate Unsaturated(p: Regulator, calls: seq<Call>)
    decreases |calls|
  {
    calls == [] ||
    var last := |calls| - 1;
    var q := IncRun(p, calls[..last]);
    && Unsaturated(p, calls[..last])
    && p.outMin <= IncRaw(q, IncErr(p, calls[last].ref, calls[last].fbk)) <= p.outMax
  }

  /** Away from the limits the increments telescope: from a cleared state the output is the
      positional law over the clamped errors. */
  lemma {:induction false} IncIsPi(p: Regulator, calls: seq<Call>)
    requires Unsaturated(p, calls)
    ensures var q := IncRun(p, calls);
      && q == p.(output := q.output, errl := q.errl)
      && q.output == p.output + Scale(p.kp, q.errl - p.errl) + Scale(p.ki, ErrSum(p, calls))
      && (calls != [] ==> q.errl == IncErr(p, calls[|calls| - 1].ref, calls[|calls| - 1].fbk))
    decreases |calls|
  {
    if calls == [] {
      ScaleZero(p.kp);
      ScaleZero(p.ki);
    } else {
      hide Scale, IncErr;
      var last := |calls| - 1;
      IncIsPi(p, calls[..last]);
      var q := IncRun(p, calls[..last]);
      var err := IncErr(p, calls[last].ref, calls[last].fbk);
      SameClamp(p, q, calls[last]);
      ScaleSum(p.kp, q.errl - p.errl, err - q.errl);
      ScaleSum(p.ki, ErrSum(p, calls[..last]), err);
    }
  }

  lemma SameClamp(p: Regulator, q: Regulator, c: Call)
    requires p.absErrMax == q.absErrMax
    ensures IncErr(p, c.ref, c.fbk) == IncErr(q, c.ref, c.fbk)
  {
  }

  lemma ScaleZero(k: real)
    ensures Scale(k, 0.0) == 0.0
  {
  }

  lemma ScaleSum(k: real, x: real, y: real)
    ensures Scale(k, x + y) == Scale(k, x) + Scale(k, y)
  {
  }

  // ----- One call, written out ----------------------------------------------------------

  /** A value cut to an interval. */
  predicate IsCut(y: real, x: real, lo: real, hi: real) {
    (lo <= x <= hi && y == x) || (x > hi && y == hi) || (x < lo && x <= hi && y == lo)
  }

  /** The incremental call: the error is the reference minus the feedback, cut; the output moves by
      the proportional gain on the change of the error and the integral gain on the error. */
  lemma IncLaw(p: Regulator, ref: real, fbk: real)
    requires p.absErrMax >= 0.0
    ensures var q := IncStep(p, ref, fbk);
      && IsCut(q.errl, ref - fbk, -p.absErrMax, p.absErrMax)
      && IsCut(q.output, p.output + Scale(p.kp, q.errl - p.errl) + Scale(p.ki, q.errl), p.outMin, p.outMax)
      && q == p.(output := q.output, errl := q.errl)
  {
    hide Scale;
  }

  /** The positional call: proportional part plus integrator, cut to the limits; the integrator
      gains the integral part exactly when the output was not cut and decays otherwise. */
  lemma PosLaw(p: Regulator, ref: real, fbk: real)
    ensures var q, raw := PosStep(p, ref, fbk), Scale(p.kp, ref - fbk) + p.iOut;
      && IsCut(q.output, raw, p.outMin, p.outMax)
      && q.iOut == (if p.outMin <= raw <= p.outMax then p.iOut + Scale(p.ki, ref - fbk) else Scale(0.98, p.iOut))
      && q == p.(output := q.output, iOut := q.iOut)
  {
    hide Scale;
  }

  /** The sum of the errors. */
  function PosErrSum(calls: seq<Call>): real
    decreases |calls|
  {
    if calls == [] then 0.0 else
      var last := |calls| - 1;
      PosErrSum(calls[..last]) + (calls[last].ref - calls[last].fbk)
  }

  /** Every call of the run is within the output limits, or every call is cut. */
  ghost predicate Cut(p: Regulator, calls: seq<Call>, cut: bool)
    decreases |calls|
  {
    calls == [] ||
    var last := |calls| - 1;
    var raw := Scale(p.kp, calls[last].ref - calls[last].fbk) + PosRun(p, calls[..last]).iOut;
    Cut(p, calls[..last], cut) && (cut <==> !(p.outMin <= raw <= p.outMax))
  }

  /** Away from the limits the positional controller is a PI controller: the output is the
      proportional gain on the last error plus the integral gain on all the earlier ones. */
  lemma {:induction false} PosIsPi(p: Regulator, calls: seq<Call>)
    requires Cut(p, calls, false)
    ensures var q := PosRun(p, calls);
      && q == p.(output := q.output, iOut := q.iOut)
      && q.iOut == p.iOut + Scale(p.ki, PosErrSum(calls))
      && (calls != [] ==>
            var last := |calls| - 1;
            q.output == Scale(p.kp, calls[last].ref - calls[last].fbk) + p.iOut + Scale(p.ki, PosErrSum(calls[..last])))
    decreases |calls|
  {
    hide PosStep, Scale;
    if calls == [] {
      ScaleZero(p.ki);
    } else {
      var last := |calls| - 1;
      PosIsPi(p, calls[..last]);
      PosLaw(PosRun(p, calls[..last]), calls[last].ref, calls[last].fbk);
      ScaleSum(p.ki, PosErrSum(calls[..last]), calls[last].ref - calls[last].fbk);
    }
  }

  function Power(x: real, n: nat): real {
    if n == 0 then 1.0 else Scale(x, Power(x, n - 1))
  }

  /** At the limits the integrator decays geometrically. */
  lemma {:induction false} PosDecays(p: Regulator, calls: seq<Call>)
    requires Cut(p, calls, true)
    ensures var q := PosRun(p, calls);
            q == p.(output := q.output, iOut := q.iOut) && q.iOut == Scale(Power(0.98, |calls|), p.iOut)
    decreases |calls|
  {
    hide PosStep, Scale;
    if calls == [] {
      ScaleOne(p.iOut);
    } else {
      var last := |calls| - 1;
      PosDecays(p, calls[..last]);
      PosLaw(PosRun(p, calls[..last]), calls[last].ref, calls[last].fbk);
      ScaleTwice(0.98, Power(0.98, last), p.iOut);
    }
  }

  lemma ScaleOne(x: real)
    ensures Scale(1.0, x) == x
  {
  }

  lemma ScaleTwice(a: real, b: real, x: real)
    ensures Scale(a, Scale(b, x)) == Scale(Scale(a, b), x)
  {
  }
}
