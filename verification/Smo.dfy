/** The sliding-mode observer of smo.c and its bounds over every run. */
module Smo {
  import opened Numeric
  import opened Trig
  import opened Transform

  /** The fields of `SMObserver_t` that the recurrences use, with the filter `SMOFirstLpf`. */
  datatype Observer = Observer(
    f: real, g: real, kslf: real, e0: real, kslide: real,
    est: AB, err: AB, z: AB, e: AB,
    pllKp: real, pllKi: real, pllErr: real, pllIsum: real, pllOut: real,
    thetaEst: real, cosTheta: real, sinTheta: real,
    realTimeWr: real, wrF: real, lpfK: real, lpfInput: real, lpfOutput: real)

  /** Surroundings the observer reads: the carrier frequency and the sine table. */
  datatype Env = Env(fs: real, table: seq<real>)

  // `expf` is a parameter: `f` stands for the decay over one period.

  /** `SMObserver_Init`; the speed filter, a structure of its own, keeps its last input. */
  function Cleared(f: real, g: real, lpfK: real, pllKp: real, pllKi: real, lpfInput: real): Observer {
    Observer(f, g, 0.24, 0.5, 0.13733, AB(0.0, 0.0), AB(0.0, 0.0), AB(0.0, 0.0), AB(0.0, 0.0),
             pllKp, pllKi, 0.0, 0.0, 0.0, 0.0, 0.0, 0.0, 0.0, 0.0, lpfK, lpfInput, 0.0)
  }

  /** One axis of the current model. */
  function Estimate(o: Observer, est: real, v: real, e: real, z: real): real {
    Scale(o.f, est) + Scale(o.g, v - e - z)
  }

  /** One axis of the switching term: a clamped error times the sliding gain. */
  function Slide(o: Observer, err: real, kslide: real): real {
    Scale(Clamp(err, -o.e0, o.e0), kslide)
  }

  function SlideGain(wrF: real): real {
    Min(15.0, 2.0 + 0.001 * Abs(wrF))
  }

  /** One axis of the back-EMF filter. */
  function BackEmf(o: Observer, e: real, z: real): real {
    e + Scale(o.kslf, z - e)
  }

  function Currents(o: Observer, u: AB, i: AB): Observer {
    var est := AB(Estimate(o, o.est.alpha, u.alpha, o.e.alpha, o.z.alpha),
                  Estimate(o, o.est.beta, u.beta, o.e.beta, o.z.beta));
    o.(est := est, err := AB(est.alpha - i.alpha, est.beta - i.beta))
  }

  function Sliding(o: Observer): Observer {
    var kslide := SlideGain(o.wrF);
    var z := AB(Slide(o, o.err.alpha, kslide), Slide(o, o.err.beta, kslide));
    o.(kslide := kslide, z := z, e := AB(BackEmf(o, o.e.alpha, z.alpha), BackEmf(o, o.e.beta, z.beta)))
  }

  function PhaseError(o: Observer): real {
    -(Scale(o.e.alpha, o.cosTheta) + Scale(o.e.beta, o.sinTheta))
  }

  /** `Filter_FirstLpf`. */
  function FirstLpf(o: Observer, wr: real): real {
    o.lpfOutput + Scale(o.lpfK, (wr + o.lpfInput) * 0.5 - o.lpfOutput)
  }

  function PllIsum(o: Observer, err: real): real {
    o.pllIsum + Scale(o.pllKi, err)
  }

  function PllOut(o: Observer, err: real): real {
    Scale(o.pllKp, err) + PllIsum(o, err)
  }

  function Pll(o: Observer, env: Env): Observer
    requires |env.table| == TableSize + 1
  {
    var err := PhaseError(o);
    var out := PllOut(o, err);
    var theta := Normal(o.thetaEst + out);
    var wr := Scale(out, env.fs);
    var lpf := FirstLpf(o, wr);
    o.(pllErr := err, pllIsum := PllIsum(o, err), pllOut := out, thetaEst := theta,
       cosTheta := CosF32(env.table, theta), sinTheta := SinF32(env.table, theta),
       realTimeWr := wr, wrF := lpf, lpfInput := wr, lpfOutput := lpf)
  }

  function Step(o: Observer, env: Env, u: AB, i: AB): Observer
    requires |env.table| == TableSize + 1
  {
    Pll(Sliding(Currents(o, u, i)), env)
  }

  class SMObserver {
    var f: real
    var g: real
    var kslf: real
    var e0: real
    var kslide: real
    var est: AB
    var err: AB
    var z: AB
    var e: AB
    var pllKp: real
    var pllKi: real
    var pllErr: real
    var pllIsum: real
    var pllOut: real
    var thetaEst: real
    var cosTheta: real
    var sinTheta: real
    var realTimeWr: real
    var wrF: real
    var lpfK: real
    var lpfInput: real
    var lpfOutput: real

    function Value(): Observer
      reads this
    {
      Observer(f, g, kslf, e0, kslide, est, err, z, e, pllKp, pllKi, pllErr, pllIsum, pllOut,
               thetaEst, cosTheta, sinTheta, realTimeWr, wrF, lpfK, lpfInput, lpfOutput)
    }

    constructor (f: real, rs: real, lpfK: real, pllKp: real, pllKi: real)
      requires rs != 0.0
      ensures Value() == Cleared(f, (1.0 / rs) * (1.0 - f), lpfK, pllKp, pllKi, 0.0)
    {
      this.f, this.g, kslf, e0, kslide := f, (1.0 / rs) * (1.0 - f), 0.24, 0.5, 0.13733;
      est, err, z, e := AB(0.0, 0.0), AB(0.0, 0.0), AB(0.0, 0.0), AB(0.0, 0.0);
      this.pllKp, this.pllKi, pllErr, pllIsum, pllOut := pllKp, pllKi, 0.0, 0.0, 0.0;
      thetaEst, cosTheta, sinTheta, realTimeWr, wrF := 0.0, 0.0, 0.0, 0.0, 0.0;
      this.lpfK, lpfInput, lpfOutput := lpfK, 0.0, 0.0;
    }

    method Init(f: real, rs: real, lpfK: real, pllKp: real, pllKi: real)
      requires rs != 0.0
      modifies this
      ensures Value() == Cleared(f, (1.0 / rs) * (1.0 - f), lpfK, pllKp, pllKi, old(lpfInput))
      ensures kslf == 0.24 && e0 == 0.5 && kslide == 0.13733 && thetaEst == wrF == lpfOutput == pllIsum == 0.0
    {
      InitModel(f, (1.0 / rs) * (1.0 - f));
      InitPll(pllKp, pllKi);
      InitOutputs(lpfK);
    }

    method InitModel(f: real, g: real)
      modifies `f, `g, `kslf, `e0, `kslide, `est, `err, `z, `e
      ensures this.f == f && this.g == g && kslf == 0.24 && e0 == 0.5 && kslide == 0.13733
      ensures est == err == z == e == AB(0.0, 0.0)
    {
      this.f, this.g, kslf, e0, kslide := f, g, 0.24, 0.5, 0.13733;
      est, err, z, e := AB(0.0, 0.0), AB(0.0, 0.0), AB(0.0, 0.0), AB(0.0, 0.0);
    }

    method InitPll(pllKp: real, pllKi: real)
      modifies `pllKp, `pllKi, `pllErr, `pllIsum, `pllOut
      ensures this.pllKp == pllKp && this.pllKi == pllKi && pllErr == pllIsum == pllOut == 0.0
    {
      this.pllKp, this.pllKi, pllErr, pllIsum, pllOut := pllKp, pllKi, 0.0, 0.0, 0.0;
    }

    method InitOutputs(lpfK: real)
      modifies `thetaEst, `cosTheta, `sinTheta, `realTimeWr, `wrF, `lpfK, `lpfOutput
      ensures thetaEst == cosTheta == sinTheta == realTimeWr == wrF == 0.0
      ensures this.lpfK == lpfK && lpfOutput == 0.0
    {
      thetaEst, cosTheta, sinTheta, realTimeWr, wrF := 0.0, 0.0, 0.0, 0.0, 0.0;
      this.lpfK, lpfOutput := lpfK, 0.0;
    }

    method Calc(env: Env, u: AB, i: AB)
      requires |env.table| == TableSize + 1
      modifies this
      ensures Value() == Step(old(Value()), env, u, i)
    {
      hide Scale, Normal, SinF32, CosF32, PhaseError, Currents, Sliding, PllOut, PllIsum;
      CalcCurrents(u, i);
      CalcSliding();
      CalcPll();
      CalcTrig(env);
      CalcSpeed(env);
    }

    method CalcCurrents(u: AB, i: AB)
      modifies this`est, this`err
      ensures Value() == Currents(old(Value()), u, i)
    {
      hide Scale;
      est := AB(Scale(f, est.alpha) + Scale(g, u.alpha - e.alpha - z.alpha), est.beta);
      est := AB(est.alpha, Scale(f, est.beta) + Scale(g, u.beta - e.beta - z.beta));
      err := AB(est.alpha - i.alpha, est.beta - i.beta);
    }

    method CalcSliding()
      modifies this`kslide, this`z, this`e
      ensures Value() == Sliding(old(Value()))
    {
      hide Scale, Clamp, Abs;
      var alpha := Clamp(err.alpha, -e0, e0);
      var beta := Clamp(err.beta, -e0, e0);
      var absWr := Abs(wrF);
      kslide := 2.0 + 0.001 * absWr;
      if kslide > 15.0 {
        kslide := 15.0;
      }
      z := AB(Scale(alpha, kslide), Scale(beta, kslide));
      e := AB(e.alpha + Scale(kslf, z.alpha - e.alpha), e.beta);
      e := AB(e.alpha, e.beta + Scale(kslf, z.beta - e.beta));
    }

    method CalcPll()
      modifies this`pllErr, this`pllIsum, this`pllOut, this`thetaEst
      ensures var o, err := old(Value()), PhaseError(old(Value()));
              Value() == o.(pllErr := err, pllIsum := PllIsum(o, err), pllOut := PllOut(o, err),
                            thetaEst := Normal(o.thetaEst + PllOut(o, err)))
    {
      hide Scale, Normal;
      PllError();
      var kpPart := Scale(pllKp, pllErr);
      pllIsum := pllIsum + Scale(pllKi, pllErr);
      pllOut := kpPart + pllIsum;
      thetaEst := thetaEst + pllOut;
      thetaEst := NormAngleRad(thetaEst);
    }

    method PllError()
      modifies this`pllErr
      ensures pllErr == PhaseError(old(Value()))
    {
      hide Scale;
      pllErr := -(Scale(e.alpha, cosTheta) + Scale(e.beta, sinTheta));
    }

    method CalcTrig(env: Env)
      requires |env.table| == TableSize + 1
      modifies this`cosTheta, this`sinTheta
      ensures Value() == old(Value()).(cosTheta := CosF32(env.table, thetaEst),
                                       sinTheta := SinF32(env.table, thetaEst))
    {
      hide SinF32, CosF32;
      cosTheta := CosF32(env.table, thetaEst);
      sinTheta := SinF32(env.table, thetaEst);
    }

    method CalcSpeed(env: Env)
      modifies this`realTimeWr, this`wrF, this`lpfInput, this`lpfOutput
      ensures var o, wr := old(Value()), Scale(pllOut, env.fs);
              Value() == o.(realTimeWr := wr, wrF := FirstLpf(o, wr), lpfInput := wr, lpfOutput := FirstLpf(o, wr))
    {
      hide Scale;
      realTimeWr := Scale(pllOut, env.fs);
      var temp := (realTimeWr + lpfInput) * 0.5 - lpfOutput;
      lpfOutput := lpfOutput + Scale(lpfK, temp);
      lpfInput := realTimeWr;
      wrF := lpfOutput;
    }
  }

  // ----- Bounds -------------------------------------------------------------------------

  predicate Within(x: real, m: real) {
    -m <= x <= m
  }

  predicate BothWithin(x: AB, m: real) {
    Within(x.alpha, m) && Within(x.beta, m)
  }

  /** The estimates' bound: the whole drive, back-EMF and switching term over the resistance. */
  function CurrentBound(vmax: real, rs: real): real
    requires rs > 0.0
  {
    (vmax + 15.0) / rs
  }

  ghost predicate Bounded(o: Observer, vmax: real, rs: real)
    requires rs > 0.0
  {
    && o.kslf == 0.24 && o.e0 == 0.5
    && BothWithin(o.z, 7.5) && BothWithin(o.e, 7.5)
    && BothWithin(o.est, CurrentBound(vmax, rs))
    && Within(o.pllErr, 15.0)
    && Within(o.cosTheta, 1.0) && Within(o.sinTheta, 1.0)
    && -Pi <= o.thetaEst < Pi
  }

  lemma WithinProduct(x: real, y: real, m: real, n: real)
    requires Within(x, m) && Within(y, n)
    ensures Within(Scale(x, y), m * n)
  {
    NonNegativeProduct(m - x, n - y);
    NonNegativeProduct(m + x, n + y);
    NonNegativeProduct(m - x, n + y);
    NonNegativeProduct(m + x, n - y);
    assert (m - x) * (n - y) + (m + x) * (n + y) == 2.0 * (m * n) + 2.0 * (x * y);
    assert (m - x) * (n + y) + (m + x) * (n - y) == 2.0 * (m * n) - 2.0 * (x * y);
  }

  /** The decay and its complement add up to one. */
  lemma EstimateWithin(o: Observer, est: real, v: real, e: real, z: real, vmax: real, rs: real)
    requires rs > 0.0 && 0.0 < o.f < 1.0 && o.g == (1.0 / rs) * (1.0 - o.f)
    requires Within(est, CurrentBound(vmax, rs)) && Within(v, vmax) && Within(e, 7.5) && Within(z, 7.5)
    ensures Within(Estimate(o, est, v, e, z), CurrentBound(vmax, rs))
  {
    var b, drive := CurrentBound(vmax, rs), v - e - z;
    GainOfDrive(o, drive, vmax, rs);
    WithinProduct(o.f, est, o.f, b);
    assert o.f * b + (1.0 - o.f) * b == b;
    hide Scale;
  }

  lemma GainOfDrive(o: Observer, drive: real, vmax: real, rs: real)
    requires rs > 0.0 && 0.0 < o.f < 1.0 && o.g == (1.0 / rs) * (1.0 - o.f) && Within(drive, vmax + 15.0)
    ensures Within(Scale(o.g, drive), (1.0 - o.f) * CurrentBound(vmax, rs))
  {
    var r, w := 1.0 / rs, vmax + 15.0;
    assert r > 0.0;
    PositiveProduct(r, 1.0 - o.f);
    assert w / rs == r * w;
    WithinProduct(o.g, drive, o.g, w);
    assert o.g * w == (1.0 - o.f) * (r * w);
    hide Scale;
  }

  lemma SlideWithin(o: Observer, err: real, kslide: real)
    requires o.e0 == 0.5 && 0.0 <= kslide <= 15.0
    ensures Within(Slide(o, err, kslide), 7.5)
  {
    WithinProduct(Clamp(err, -o.e0, o.e0), kslide, 0.5, 15.0);
    hide Scale;
  }

  lemma BackEmfWithin(o: Observer, e: real, z: real)
    requires o.kslf == 0.24 && Within(e, 7.5) && Within(z, 7.5)
    ensures Within(BackEmf(o, e, z), 7.5)
  {
  }

  lemma PhaseErrorWithin(o: Observer)
    requires BothWithin(o.e, 7.5) && Within(o.cosTheta, 1.0) && Within(o.sinTheta, 1.0)
    ensures Within(PhaseError(o), 15.0)
  {
    WithinProduct(o.e.alpha, o.cosTheta, 7.5, 1.0);
    WithinProduct(o.e.beta, o.sinTheta, 7.5, 1.0);
    hide Scale;
  }

  /** One call keeps every bound, whatever the measured current. */
  lemma StepBounded(o: Observer, env: Env, u: AB, i: AB, vmax: real, rs: real)
    requires rs > 0.0 && 0.0 < o.f < 1.0 && o.g == (1.0 / rs) * (1.0 - o.f)
    requires IsTable(env.table) && BothWithin(u, vmax) && Bounded(o, vmax, rs)
    ensures Bounded(Step(o, env, u, i), vmax, rs)
  {
    hide Scale, Normal, SinF32, CosF32, Estimate, BackEmf, PhaseError, Slide, CurrentBound, PllOut, PllIsum, FirstLpf;
    EstimateWithin(o, o.est.alpha, u.alpha, o.e.alpha, o.z.alpha, vmax, rs);
    EstimateWithin(o, o.est.beta, u.beta, o.e.beta, o.z.beta, vmax, rs);
    var o1 := Currents(o, u, i);
    var kslide := SlideGain(o1.wrF);
    SlideWithin(o1, o1.err.alpha, kslide);
    SlideWithin(o1, o1.err.beta, kslide);
    BackEmfWithin(o1, o1.e.alpha, Slide(o1, o1.err.alpha, kslide));
    BackEmfWithin(o1, o1.e.beta, Slide(o1, o1.err.beta, kslide));
    var o2 := Sliding(o1);
    PhaseErrorWithin(o2);
    var o3 := Pll(o2, env);
    NormalStep(o2.thetaEst + o3.pllOut);
    SinLaw(env.table, o3.thetaEst);
    CosLaw(env.table, o3.thetaEst);
  }

  datatype Sample = Sample(u: AB, i: AB)

  function Run(o: Observer, env: Env, samples: seq<Sample>): Observer
    requires |env.table| == TableSize + 1
    decreases |samples|
  {
    if samples == [] then o else
      var last := |samples| - 1;
      Step(Run(o, env, samples[..last]), env, samples[last].u, samples[last].i)
  }

  /** From the initialised observer, whatever its filter saw before, every run of voltages within
      `vmax` keeps every bound. */
  lemma {:induction false} RunBounded(f: real, rs: real, lpfK: real, pllKp: real, pllKi: real,
                                      lpfInput: real, env: Env, samples: seq<Sample>, vmax: real)
    requires rs > 0.0 && 0.0 < f < 1.0 && vmax >= 0.0 && IsTable(env.table)
    requires forall k :: 0 <= k < |samples| ==> BothWithin(samples[k].u, vmax)
    ensures var g := (1.0 / rs) * (1.0 - f);
            var o := Run(Cleared(f, g, lpfK, pllKp, pllKi, lpfInput), env, samples);
            Bounded(o, vmax, rs) && o.f == f && o.g == g
    decreases |samples|
  {
    hide Step, Within, CurrentBound;
    var o := Cleared(f, (1.0 / rs) * (1.0 - f), lpfK, pllKp, pllKi, lpfInput);
    if samples == [] {
      ClearedBounded(f, (1.0 / rs) * (1.0 - f), lpfK, pllKp, pllKi, lpfInput, vmax, rs);
    } else {
      var last := |samples| - 1;
      RunBounded(f, rs, lpfK, pllKp, pllKi, lpfInput, env, samples[..last], vmax);
      var q := Run(o, env, samples[..last]);
      StepBounded(q, env, samples[last].u, samples[last].i, vmax, rs);
      StepKeepsGains(q, env, samples[last].u, samples[last].i);
    }
  }

  lemma ClearedBounded(f: real, g: real, lpfK: real, pllKp: real, pllKi: real, lpfInput: real,
                       vmax: real, rs: real)
    requires rs > 0.0 && vmax >= 0.0
    ensures Bounded(Cleared(f, g, lpfK, pllKp, pllKi, lpfInput), vmax, rs)
  {
    assert CurrentBound(vmax, rs) >= 0.0;
  }

  lemma StepKeepsGains(o: Observer, env: Env, u: AB, i: AB)
    requires |env.table| == TableSize + 1
    ensures Step(o, env, u, i).f == o.f && Step(o, env, u, i).g == o.g
  {
  }

  /** Every angle the observer looks up has a turn count that fits its integer. */
  lemma LookupsFit(theta: real)
    requires -Pi <= theta < Pi
    ensures FitsInt32(theta * InvTurn) && FitsInt32(theta * InvTurn + 0.25)
  {
  }

  // ----- What the recurrences do --------------------------------------------------------

  /** The current model is a winding of resistance `rs` driven by the voltage less back-EMF and
      switching term: the estimate's distance from the stationary current shrinks by the decay
      factor. */
  lemma EstimateLaw(o: Observer, est: real, v: real, e: real, z: real, rs: real)
    requires rs > 0.0 && o.g == (1.0 / rs) * (1.0 - o.f)
    ensures var stationary := (v - e - z) / rs;
            Estimate(o, est, v, e, z) - stationary == o.f * (est - stationary)
  {
    var x := v - e - z;
    assert x / rs == (1.0 / rs) * x;
    assert o.g * x == (1.0 - o.f) * (x / rs);
    assert (1.0 - o.f) * (x / rs) == x / rs - o.f * (x / rs);
    assert o.f * (est - x / rs) == o.f * est - o.f * (x / rs);
  }

  /** The switching term has the sign of the error: proportional to it up to half an ampere, and
      constant beyond. The gain grows with the speed, between 2 and 15. */
  lemma SlideLaw(o: Observer, err: real)
    requires o.e0 == 0.5
    ensures var k := SlideGain(o.wrF);
      && 2.0 <= k <= 15.0
      && (Abs(o.wrF) <= 13000.0 ==> k == 2.0 + Abs(o.wrF) / 1000.0) && (Abs(o.wrF) > 13000.0 ==> k == 15.0)
      && Slide(o, err, k) == (if err > 0.5 then 0.5 * k else if err < -0.5 then -(0.5 * k) else err * k)
  {
  }

  /** One call, axis by axis: the estimates come from the measured voltage and the terms before the
      call, the errors are estimate minus measurement, the switching terms follow the errors, and the
      back-EMF goes 24 hundredths of the way to the new switching term. */
  lemma SlidingLaw(o: Observer, u: AB, i: AB)
    requires o.kslf == 0.24
    ensures var q := Currents(o, u, i);
            var n := Sliding(q);
      && q.est == AB(Estimate(o, o.est.alpha, u.alpha, o.e.alpha, o.z.alpha),
                     Estimate(o, o.est.beta, u.beta, o.e.beta, o.z.beta))
      && q.err.alpha + i.alpha == q.est.alpha && q.err.beta + i.beta == q.est.beta
      && n.z == AB(Slide(o, q.err.alpha, SlideGain(o.wrF)), Slide(o, q.err.beta, SlideGain(o.wrF)))
      && n.e.alpha == 0.76 * o.e.alpha + 0.24 * n.z.alpha && n.e.beta == 0.76 * o.e.beta + 0.24 * n.z.beta
      && n == o.(est := n.est, err := n.err, z := n.z, e := n.e, kslide := n.kslide)
  {
    hide Slide, SlideGain, Estimate, BackEmf;
    var q := Currents(o, u, i);
    BackEmfLaw(q, q.e.alpha, Slide(q, q.err.alpha, SlideGain(q.wrF)));
    BackEmfLaw(q, q.e.beta, Slide(q, q.err.beta, SlideGain(q.wrF)));
    SlideIgnores(o, q, q.err.alpha);
    SlideIgnores(o, q, q.err.beta);
  }

  lemma BackEmfLaw(o: Observer, e: real, z: real)
    requires o.kslf == 0.24
    ensures BackEmf(o, e, z) == 0.76 * e + 0.24 * z
  {
  }

  lemma SlideIgnores(o: Observer, q: Observer, err: real)
    requires q.e0 == o.e0
    ensures Slide(q, err, SlideGain(o.wrF)) == Slide(o, err, SlideGain(o.wrF))
  {
  }

  /** The phase detector: for a back-EMF of size `m` a quarter turn ahead of the angle with sine `sn`
      and cosine `cs`, the error is `m` times the sine of that angle less the estimated one, so it
      vanishes at the true angle and pulls the estimate toward it. */
  lemma PhaseErrorLaw(o: Observer, m: real, sn: real, cs: real)
    requires o.e == AB(-(m * sn), m * cs)
    ensures PhaseError(o) == m * (sn * o.cosTheta - cs * o.sinTheta)
    ensures sn == o.sinTheta && cs == o.cosTheta ==> PhaseError(o) == 0.0
  {
    assert Scale(-(m * sn), o.cosTheta) == -(m * (sn * o.cosTheta));
    assert Scale(m * cs, o.sinTheta) == m * (cs * o.sinTheta);
    assert m * (sn * o.cosTheta - cs * o.sinTheta) == m * (sn * o.cosTheta) - m * (cs * o.sinTheta);
    assert sn == o.sinTheta && cs == o.cosTheta ==> sn * o.cosTheta - cs * o.sinTheta == 0.0;
  }

  /** The tracking loop: the angle moves by the proportional gain on the error plus the accumulated
      integral, up to whole turns; sine and cosine are looked up there; the speed is that movement
      times the carrier frequency, and its filter goes the share `lpfK` of the way from its output
      to the mean of the last two speeds. */
  lemma PllLaw(o: Observer, env: Env)
    requires |env.table| == TableSize + 1
    ensures var n, err := Pll(o, env), PhaseError(o);
      && n.pllErr == err && n.pllIsum == o.pllIsum + o.pllKi * err && n.pllOut == o.pllKp * err + n.pllIsum
      && n.thetaEst == o.thetaEst + n.pllOut - WholeTurns(o.thetaEst + n.pllOut) as real * TwoPi
      && n.sinTheta == SinF32(env.table, n.thetaEst) && n.cosTheta == CosF32(env.table, n.thetaEst)
      && n.realTimeWr == n.pllOut * env.fs
      && n.wrF == o.lpfOutput + o.lpfK * ((n.realTimeWr + o.lpfInput) / 2.0 - o.lpfOutput)
      && n.lpfOutput == n.wrF && n.lpfInput == n.realTimeWr
  {
    hide SinF32, CosF32, PhaseError, WholeTurns;
  }

  /** A whole call: the sliding part on the new voltage and current, and the tracking loop on the new
      back-EMF against the angle so far. */
  lemma StepLaw(o: Observer, env: Env, u: AB, i: AB)
    requires |env.table| == TableSize + 1
    ensures var n, q := Step(o, env, u, i), Sliding(Currents(o, u, i));
      && n.est == q.est && n.err == q.err && n.z == q.z && n.e == q.e && n.kslide == q.kslide
      && n.pllErr == PhaseError(n.(cosTheta := o.cosTheta, sinTheta := o.sinTheta))
  {
    hide SinF32, CosF32, Normal, Clamp, Abs;
  }

  function ErrorSum(o: Observer, env: Env, samples: seq<Sample>): real
    requires |env.table| == TableSize + 1
    decreases |samples|
  {
    if samples == [] then 0.0 else
      ErrorSum(o, env, samples[..|samples| - 1]) + Run(o, env, samples).pllErr
  }

  /** Over every run the speed estimate is a PI controller's on the phase errors. */
  lemma {:induction false} SpeedIsPi(o: Observer, env: Env, samples: seq<Sample>)
    requires |env.table| == TableSize + 1
    ensures var n := Run(o, env, samples);
      && n.pllKp == o.pllKp && n.pllKi == o.pllKi
      && n.pllIsum == o.pllIsum + o.pllKi * ErrorSum(o, env, samples)
      && (samples != [] ==>
            && n.pllOut == o.pllKp * n.pllErr + o.pllIsum + o.pllKi * ErrorSum(o, env, samples)
            && n.realTimeWr == n.pllOut * env.fs)
    decreases |samples|
  {
    hide Pll, Sliding, Currents;
    if samples == [] {
      assert o.pllKi * ErrorSum(o, env, samples) == 0.0;
    } else {
      var last := |samples| - 1;
      SpeedIsPi(o, env, samples[..last]);
      var q := Run(o, env, samples[..last]);
      var r := Sliding(Currents(q, samples[last].u, samples[last].i));
      SlidingKeeps(q, samples[last].u, samples[last].i);
      PllLaw(r, env);
      PllKeeps(r, env);
      SumNext(q.pllIsum, o.pllIsum, o.pllKi, ErrorSum(o, env, samples[..last]), PhaseError(r));
      hide PhaseError;
    }
  }

  lemma SlidingKeeps(o: Observer, u: AB, i: AB)
    ensures var n := Sliding(Currents(o, u, i));
            n.pllKp == o.pllKp && n.pllKi == o.pllKi && n.pllIsum == o.pllIsum
  {
  }

  lemma PllKeeps(o: Observer, env: Env)
    requires |env.table| == TableSize + 1
    ensures Pll(o, env).pllKp == o.pllKp && Pll(o, env).pllKi == o.pllKi
  {
  }

  lemma SumNext(i: real, start: real, k: real, sum: real, x: real)
    requires i == start + k * sum
    ensures i + k * x == start + k * (sum + x)
  {
  }
}
