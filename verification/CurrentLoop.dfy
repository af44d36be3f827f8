/** The current controller `control_current` of the VESC code: regulator, voltage limiter with
    anti-windup, inverse Park transform and modulation. */
module CurrentLoop {
  import opened Numeric
  import opened SpaceVector
  import opened Transform

  // ----- The voltage limiter ------------------------------------------------------------

  /** `utils_saturate_vector_2d`: shrink the vector onto the circle when it is outside. */
  function SaturateVector(x: real, y: real, max: real, sqrt: real -> real): (real, real) {
    var mag := sqrt(Sq(x) + Sq(y));
    if mag > max && mag > 0.0 then (x * (max / mag), y * (max / mag)) else (x, y)
  }

  /** The limiter: the d axis is served first, the q axis takes what the circle leaves. */
  function LimitD(vd: real, max: real): real {
    Truncate(vd, -max, max)
  }

  function LimitQ(vd: real, vq: real, max: real, sqrt: real -> real): real {
    var room := sqrt(Sq(max) - Sq(LimitD(vd, max)));
    Truncate(vq, -room, room)
  }

  /** The limited vector is inside the circle, it is the command itself exactly when the
      command was inside, and the vector saturation that follows finds nothing to do. The d axis is
      cut to the radius; the q axis is kept or brought toward zero onto the circle. */
  lemma LimiterLaw(vd: real, vq: real, max: real, sqrt: real -> real)
    requires max >= 0.0 && IsSqrt(sqrt)
    ensures var d, q := LimitD(vd, max), LimitQ(vd, vq, max, sqrt);
      && Sq(d) + Sq(q) <= Sq(max)
      && ((d, q) == (vd, vq) <==> Sq(vd) + Sq(vq) <= Sq(max))
      && SaturateVector(d, q, max, sqrt) == (d, q)
      && d == (if vd > max then max else if vd < -max then -max else vd)
      && (q == vq || (Sq(d) + Sq(q) == Sq(max) && (vq >= 0.0 ==> 0.0 <= q <= vq) && (vq <= 0.0 ==> vq <= q <= 0.0)))
  {
    hide Sq;
    var d, q := LimitD(vd, max), LimitQ(vd, vq, max, sqrt);
    SquareMonotone(d, max);
    var room := sqrt(Sq(max) - Sq(d));
    SquareMonotone(q, room);
    if Sq(vd) + Sq(vq) <= Sq(max) {
      InsideIsKept(vd, vq, max, room);
    }
    SquareOfOpposite(room);
    SquareNonNegative(d);
    SquareNonNegative(q);
    RootOrder(Sq(d) + Sq(q), max, sqrt);
  }

  lemma SquareOfOpposite(x: real)
    ensures Sq(-x) == Sq(x)
  {
  }

  lemma RootOrder(x: real, max: real, sqrt: real -> real)
    requires IsSqrt(sqrt) && 0.0 <= x <= Sq(max) && max >= 0.0
    ensures sqrt(x) <= max
  {
    SquareOrder(sqrt(x), max);
  }

  lemma InsideIsKept(vd: real, vq: real, max: real, room: real)
    requires max >= 0.0 && Sq(vd) + Sq(vq) <= Sq(max)
    requires room >= 0.0 && Sq(room) == Sq(max) - Sq(LimitD(vd, max))
    ensures LimitD(vd, max) == vd && Truncate(vq, -room, room) == vq
  {
    hide Sq;
    SquareNonNegative(vq);
    SquareOrder(vd, max);
    SquareOrder(vq, room);
  }

  // ----- From the voltage circle to the clamps of `foc_svm` -----------------------------

  /** The rotation keeps the length of a vector. */
  lemma RotationKeepsNorm(d: real, q: real, sn: real, cs: real)
    requires Sq(sn) + Sq(cs) == 1.0
    ensures Sq(IparkAlpha(d, q, sn, cs)) + Sq(IparkBeta(d, q, sn, cs)) == Sq(d) + Sq(q)
  {
    hide IparkAlpha, IparkBeta, Sq, Scale;
    SquareOfRotated(d, q, sn, cs);
    Distribute(Sq(d), Sq(sn), Sq(cs));
    Distribute(Sq(q), Sq(sn), Sq(cs));
    ScaleOne(Sq(d));
    ScaleOne(Sq(q));
  }

  lemma SquareOfRotated(d: real, q: real, sn: real, cs: real)
    ensures Sq(IparkAlpha(d, q, sn, cs)) == Scale(Sq(d), Sq(cs)) - 2.0 * (cs * sn * d * q) + Scale(Sq(q), Sq(sn))
    ensures Sq(IparkBeta(d, q, sn, cs)) == Scale(Sq(q), Sq(cs)) + 2.0 * (cs * sn * d * q) + Scale(Sq(d), Sq(sn))
  {
  }

  lemma LineSquares(alpha: real, w: real)
    ensures 3.0 * Sq(alpha - w) <= 4.0 * (Sq(alpha) + 3.0 * Sq(w))
    ensures 3.0 * Sq(alpha + w) <= 4.0 * (Sq(alpha) + 3.0 * Sq(w))
    ensures 3.0 * Sq(2.0 * w) <= 4.0 * (Sq(alpha) + 3.0 * Sq(w))
  {
    var x, y := alpha + 3.0 * w, alpha - 3.0 * w;
    SquareNonNegative(x);
    SquareNonNegative(y);
    SquareNonNegative(alpha);
    assert Sq(x) == 4.0 * (Sq(alpha) + 3.0 * Sq(w)) - 3.0 * Sq(alpha - w);
    assert Sq(y) == 4.0 * (Sq(alpha) + 3.0 * Sq(w)) - 3.0 * Sq(alpha + w);
  }

  lemma ThirdOfSquare(beta: real, s: real)
    requires s > 0.0 && s * s == 3.0
    ensures Sq(beta) == 3.0 * Sq(beta / s)
  {
    var w := beta / s;
    assert w * s == beta;
    assert (w * s) * (w * s) == (w * w) * (s * s);
  }

  /** The widest line voltage of a vector of length `r` is `2r` over the square root of 3. */
  lemma SpanOfCircle(alpha: real, beta: real, m: real, s: real)
    requires s > 0.0 && s * s == 3.0 && m >= 0.0
    requires 4.0 * (Sq(alpha) + Sq(beta)) <= 3.0 * Sq(m)
    ensures Span(ModLevels(alpha, beta, s)) <= m
  {
    hide Sq;
    var w := beta / s;
    ThirdOfSquare(beta, s);
    LineSquares(alpha, w);
    SquareOrder(alpha - w, m);
    SquareOrder(alpha + w, m);
    SquareOrder(2.0 * w, m);
  }

  lemma RadiusSquare(r: real, m: real, s: real)
    requires s > 0.0 && s * s == 3.0 && m >= 0.0 && r >= 0.0 && 2.0 * r <= Scale(s, m)
    ensures 4.0 * Sq(r) <= 3.0 * Sq(m)
  {
    SquareMonotone(2.0 * r, s * m);
    assert Sq(s * m) == (s * s) * Sq(m);
    assert Sq(2.0 * r) == 4.0 * Sq(r);
  }

  lemma WidestVector(r: real, m: real, s: real)
    requires s > 0.0 && r >= 0.0 && 2.0 * r > Scale(s, m)
    ensures Span(ModLevels(0.0, r, s)) > m
  {
    var w := r / s;
    assert w * s == r;
    if 2.0 * w <= m {
      ScaleOrder(s, 2.0 * w, m);
    }
    assert 2.0 * w > m;
    SameSign(r, s);
  }

  /** The circle of radius `r` needs at most the fraction `m` of the period at every angle
      exactly when `2r <= sqrt(3) * m`. */
  lemma CircleFits(r: real, m: real, s: real)
    requires s > 0.0 && s * s == 3.0 && m >= 0.0 && r >= 0.0
    ensures 2.0 * r <= Scale(s, m) <==>
            forall alpha, beta :: Sq(alpha) + Sq(beta) <= Sq(r) ==> Span(ModLevels(alpha, beta, s)) <= m
  {
    hide Sq, Scale, ModLevels, Span;
    if 2.0 * r <= Scale(s, m) {
      RadiusSquare(r, m, s);
      forall alpha, beta | Sq(alpha) + Sq(beta) <= Sq(r)
        ensures Span(ModLevels(alpha, beta, s)) <= m
      {
        SpanOfCircle(alpha, beta, m, s);
      }
    } else {
      WidestVector(r, m, s);
      SquareOfZero();
      assert Sq(0.0) + Sq(r) <= Sq(r);
    }
  }

  lemma SquareOfZero()
    ensures Sq(0.0) == 0.0
  {
  }

  lemma SpanModCounts(alpha: real, beta: real, top: int, s: real)
    requires s > 0.0 && 0 <= top
    ensures Span(ModCounts(alpha, beta, top, s)) == Scale(top as real, Span(ModLevels(alpha, beta, s)))
  {
    hide Scale, Lo, Hi;
    var p, l := top as real, ModLevels(alpha, beta, s);
    ScaleLo(l, p);
    Distribute(p, alpha - beta / s, 2.0 * (beta / s));
    Distribute(p, Lo(l), Hi(l) - Lo(l));
    Distribute(p, 0.0, 0.0);
  }

  /** A vector whose span is within the modulation limit passes both clamps untouched. */
  lemma ClampsIdle(alpha: real, beta: real, top: int, maxMod: real, s: real)
    requires s > 0.0 && 0 <= top && Span(ModLevels(alpha, beta, s)) <= maxMod <= 1.0
    ensures var l := ModCounts(alpha, beta, top, s);
      && Span(l) <= top as real
      && forall x :: IsLevel(l, x) ==> 0 <= DutyCount(l, top, x) <= DutyMax(top, maxMod)
  {
    var l := ModCounts(alpha, beta, top, s);
    SpanModCounts(alpha, beta, top, s);
    SpanCap(Span(ModLevels(alpha, beta, s)), top, maxMod);
    hide DutyCount, Lo, Hi, Scale, DutyMax;
    forall x | IsLevel(l, x)
      ensures 0 <= DutyCount(l, top, x) <= DutyMax(top, maxMod)
    {
      DutyCountLaw(l, top, x, x);
      DutyBelowMax(DutyCount(l, top, x), Span(l), top, maxMod);
    }
  }

  lemma SpanCap(span: real, top: int, maxMod: real)
    requires 0 <= top && span <= maxMod <= 1.0
    ensures Scale(top as real, span) <= Scale(top as real, maxMod) <= top as real
  {
    ScaleOrder(top as real, span, maxMod);
    ScaleOrder(top as real, maxMod, 1.0);
  }

  lemma DutyBelowMax(d: int, span: real, top: int, maxMod: real)
    requires 0 <= d && d as real <= (top as real + span) / 2.0 && span <= Scale(top as real, maxMod)
    ensures d <= DutyMax(top, maxMod)
  {
    var limit := top as real * (1.0 - (1.0 - maxMod) * 0.5);
    assert limit == (top as real + Scale(top as real, maxMod)) / 2.0;
    assert d as real <= limit;
  }

  // ----- `control_current` --------------------------------------------------------------

  datatype Decoupling = Disabled | Cross | Bemf | CrossBemf

  /** The configuration the controller reads. */
  datatype Config = Config(lMaxDuty: real, filterConst: real, kp: real, ki: real, tempComp: bool, overmod: real,
                           gainStart: real, gainMaxMod: real, decoupling: Decoupling, flux: real)

  /** What the sampling, observer and outer loops hand to one run of the controller. */
  datatype Inputs = Inputs(sn: real, cs: real, iAlpha: real, iBeta: real, idTarget: real, iqTarget: real,
                           vBus: real, maxDuty: real, dutyNow: real, speed: real, lq: real, ld: real,
                           kiTempComp: real, decouple: bool, dt: real, top: int,
                           vAlpha: real, vBeta: real)

  function MaxDuty(i: Inputs, c: Config): real {
    Truncate(Abs(i.maxDuty), 0.0, c.lMaxDuty)
  }

  function MeasuredD(i: Inputs): real { ParkD(i.iAlpha, i.iBeta, i.sn, i.cs) }

  function MeasuredQ(i: Inputs): real { ParkQ(i.iAlpha, i.iBeta, i.sn, i.cs) }

  /** `UTILS_LP_FAST`. */
  function LowPass(value: real, sample: real, k: real): real { value - k * (value - sample) }

  /** `utils_map`. */
  function Map(x: real, inMin: real, inMax: real, outMin: real, outMax: real): real
    requires inMin != inMax
  {
    (x - inMin) * (outMax - outMin) / (inMax - inMin) + outMin
  }

  /** The d-axis gain falls with the modulation depth. */
  function DGain(i: Inputs, c: Config): real {
    if c.gainStart >= 0.99 then 1.0 else
      var depth := if MaxDuty(i, c) < 0.01 then 1.0 else Abs(i.dutyNow / MaxDuty(i, c));
      if depth > c.gainStart then Max(Map(depth, c.gainStart, 1.0, 1.0, c.gainMaxMod), c.gainMaxMod) else 1.0
  }

  /** Feedforward taken from the d and added to the q voltage. */
  function DecD(i: Inputs, c: Config, iqFilter: real): real {
    if i.decouple && (c.decoupling.Cross? || c.decoupling.CrossBemf?) then iqFilter * i.speed * i.lq else 0.0
  }

  function DecQ(i: Inputs, c: Config, idFilter: real): real {
    (if i.decouple && (c.decoupling.Cross? || c.decoupling.CrossBemf?) then idFilter * i.speed * i.ld else 0.0)
    + (if i.decouple && (c.decoupling.Bemf? || c.decoupling.CrossBemf?) then i.speed * c.flux else 0.0)
  }

  function PropD(i: Inputs, c: Config): real { (i.idTarget - MeasuredD(i)) * c.kp * DGain(i, c) }

  function PropQ(i: Inputs, c: Config): real { (i.iqTarget - MeasuredQ(i)) * c.kp }

  /** The integral gain, compensated for the temperature where that is configured. */
  function Ki(i: Inputs, c: Config): real { if c.tempComp then i.kiTempComp else c.ki }

  function StepD(i: Inputs, c: Config): real { (i.idTarget - MeasuredD(i)) * (Ki(i, c) * DGain(i, c) * i.dt) }

  function StepQ(i: Inputs, c: Config): real { (i.iqTarget - MeasuredQ(i)) * (Ki(i, c) * i.dt) }

  /** The voltages that the regulator asks for, before any limit. */
  function DemandD(vdInt: real, iqFilter: real, i: Inputs, c: Config): real {
    vdInt + StepD(i, c) + PropD(i, c) - DecD(i, c, iqFilter)
  }

  function DemandQ(vqInt: real, idFilter: real, i: Inputs, c: Config): real {
    vqInt + StepQ(i, c) + PropQ(i, c) + DecQ(i, c, idFilter)
  }

  /** `max_v_mag`: the radius of the voltage circle. */
  function MaxVoltage(i: Inputs, c: Config, s: real): real
    requires s > 0.0
  {
    (1.0 / s) * MaxDuty(i, c) * i.vBus * c.overmod
  }

  lemma MaxVoltageRadius(i: Inputs, c: Config, s: real)
    requires s > 0.0 && s * s == 3.0 && i.vBus > 0.0 && c.overmod >= 0.0 && c.lMaxDuty >= 0.0
    ensures MaxVoltage(i, c, s) >= 0.0
    ensures 2.0 * Scale(1.5 / i.vBus, MaxVoltage(i, c, s)) == Scale(s, Scale(MaxDuty(i, c), c.overmod))
  {
    var m := MaxDuty(i, c);
    assert m >= 0.0;
    ThirdOfRoot(s);
    Circle(1.0 / s, m, i.vBus, c.overmod);
    assert 3.0 * ((1.0 / s) * (m * c.overmod)) == s * (m * c.overmod);
  }

  lemma ThirdOfRoot(s: real)
    requires s > 0.0 && s * s == 3.0
    ensures 3.0 * (1.0 / s) == s
  {
    SameFactor(3.0 * (1.0 / s), s, s);
  }

  lemma Circle(g: real, m: real, vBus: real, ov: real)
    requires g > 0.0 && m >= 0.0 && vBus > 0.0 && ov >= 0.0
    ensures g * m * vBus * ov >= 0.0
    ensures Scale(1.5 / vBus, g * m * vBus * ov) == 1.5 * (g * (m * ov))
  {
    var x := g * m * ov;
    assert g * m >= 0.0;
    assert x >= 0.0;
    assert g * m * vBus * ov == vBus * x;
    assert (1.5 / vBus) * vBus == 1.5;
    assert (1.5 / vBus) * (vBus * x) == ((1.5 / vBus) * vBus) * x;
  }

  lemma ScaledCircle(d: real, q: real, max: real, k: real)
    requires Sq(d) + Sq(q) <= Sq(max)
    ensures Sq(Scale(k, d)) + Sq(Scale(k, q)) <= Sq(Scale(k, max))
  {
    ScaledSquare(d, k);
    ScaledSquare(q, k);
    ScaledSquare(max, k);
    SquareNonNegative(k);
    ScaleOrder(Sq(k), Sq(d) + Sq(q), Sq(max));
    Distribute(Sq(k), Sq(d), Sq(q));
    hide Sq, Scale;
  }

  lemma ScaledSquare(x: real, k: real)
    ensures Sq(Scale(k, x)) == Scale(Sq(k), Sq(x))
  {
    assert (k * x) * (k * x) == (k * k) * (x * x);
  }

  /** A voltage inside the circle keeps its span below the duty limit times the overmodulation
      factor, whatever the rotor angle. */
  lemma SpanOfVoltage(vd: real, vq: real, i: Inputs, c: Config, s: real)
    requires s > 0.0 && s * s == 3.0 && i.vBus > 0.0 && c.overmod >= 0.0 && c.lMaxDuty >= 0.0
    requires Sq(i.sn) + Sq(i.cs) == 1.0
    requires Sq(vd) + Sq(vq) <= Sq(MaxVoltage(i, c, s))
    ensures var md, mq := Scale(1.5 / i.vBus, vd), Scale(1.5 / i.vBus, vq);
            Span(ModLevels(IparkAlpha(md, mq, i.sn, i.cs), IparkBeta(md, mq, i.sn, i.cs), s))
              <= Scale(MaxDuty(i, c), c.overmod)
  {
    hide Sq, Scale, MaxVoltage, MaxDuty, Span, ModLevels, IparkAlpha, IparkBeta;
    var norm, m := 1.5 / i.vBus, Scale(MaxDuty(i, c), c.overmod);
    var md, mq := Scale(norm, vd), Scale(norm, vq);
    DutyOvermod(i, c);
    MaxVoltageRadius(i, c, s);
    ScaledCircle(vd, vq, MaxVoltage(i, c, s), norm);
    RotationKeepsNorm(md, mq, i.sn, i.cs);
    var r := Scale(norm, MaxVoltage(i, c, s));
    NonNegativeScale(norm, MaxVoltage(i, c, s));
    RadiusSquare(r, m, s);
    SpanOfCircle(IparkAlpha(md, mq, i.sn, i.cs), IparkBeta(md, mq, i.sn, i.cs), m, s);
  }

  lemma NonNegativeScale(k: real, x: real)
    requires k >= 0.0 && x >= 0.0
    ensures Scale(k, x) >= 0.0
  {
  }

  lemma DutyOvermod(i: Inputs, c: Config)
    requires c.overmod >= 0.0 && c.lMaxDuty >= 0.0
    ensures 0.0 <= Scale(MaxDuty(i, c), c.overmod) <= Scale(c.lMaxDuty, c.overmod)
  {
    var m := MaxDuty(i, c);
    assert 0.0 <= m <= c.lMaxDuty;
    MulOrder(0.0, m, c.overmod);
    MulOrder(m, c.lMaxDuty, c.overmod);
  }

  /** What the controller keeps between calls. */
  datatype Loop = Loop(vdInt: real, vqInt: real, idFilter: real, iqFilter: real)

  /** The integrators take over what the limiter took off their voltages. */
  function LoopStep(l: Loop, i: Inputs, c: Config, s: real, sqrt: real -> real): Loop
    requires s > 0.0
  {
    var idFilter := LowPass(l.idFilter, MeasuredD(i), c.filterConst);
    var iqFilter := LowPass(l.iqFilter, MeasuredQ(i), c.filterConst);
    var vd, vq, max := DemandD(l.vdInt, iqFilter, i, c), DemandQ(l.vqInt, idFilter, i, c), MaxVoltage(i, c, s);
    Loop(l.vdInt + StepD(i, c) + (LimitD(vd, max) - vd), l.vqInt + StepQ(i, c) + (LimitQ(vd, vq, max, sqrt) - vq),
         idFilter, iqFilter)
  }

  lemma DemandIs(vdInt: real, vqInt: real, idFilter: real, iqFilter: real, i: Inputs, c: Config)
    ensures DemandD(vdInt, iqFilter, i, c) == vdInt + StepD(i, c) + PropD(i, c) - DecD(i, c, iqFilter)
    ensures DemandQ(vqInt, idFilter, i, c) == vqInt + StepQ(i, c) + PropQ(i, c) + DecQ(i, c, idFilter)
  {
  }

  lemma LoopStepIs(l: Loop, i: Inputs, c: Config, s: real, sqrt: real -> real)
    requires s > 0.0
    ensures var n, max := LoopStep(l, i, c, s, sqrt), MaxVoltage(i, c, s);
            var vd, vq := DemandD(l.vdInt, n.iqFilter, i, c), DemandQ(l.vqInt, n.idFilter, i, c);
      && n.idFilter == LowPass(l.idFilter, MeasuredD(i), c.filterConst)
      && n.iqFilter == LowPass(l.iqFilter, MeasuredQ(i), c.filterConst)
      && n.vdInt == l.vdInt + StepD(i, c) + (LimitD(vd, max) - vd)
      && n.vqInt == l.vqInt + StepQ(i, c) + (LimitQ(vd, vq, max, sqrt) - vq)
  {
  }

  class CurrentLoop {
    var id: real
    var iq: real
    var idFilter: real
    var iqFilter: real
    var vdInt: real
    var vqInt: real
    var vd: real
    var vq: real
    var modD: real
    var modQ: real
    var modQFilter: real
    var iAbs: real
    var iAbsFilter: real
    var modAlphaRaw: real
    var modBetaRaw: real
    var sector: int
    var duty1: int
    var duty2: int
    var duty3: int

    function Value(): Loop
      reads this
    {
      Loop(vdInt, vqInt, idFilter, iqFilter)
    }

    /** One run of the controller. The vector it modulates lies in the voltage circle; each
        integrator is set back so that integrator, proportional part and feedforward add up to
        the limited voltage; and without overmodulation no clamp of `foc_svm` acts, so the
        duties are the exact counts of the requested line voltages. */
    method ControlCurrent(i: Inputs, c: Config, s: real, sqrt: real -> real)
      requires IsSqrt(sqrt) && s > 0.0 && s * s == 3.0
      requires Sq(i.sn) + Sq(i.cs) == 1.0 && i.vBus > 0.0
      requires 0.0 <= c.lMaxDuty <= 1.0 && 0.0 <= c.overmod
      requires 0 <= i.top && i.top as real + Scale(i.top as real, c.overmod) < 0x8000_0000 as real
      modifies this
      ensures id == MeasuredD(i) && iq == MeasuredQ(i)
      ensures idFilter == LowPass(old(idFilter), id, c.filterConst)
      ensures iqFilter == LowPass(old(iqFilter), iq, c.filterConst)
      ensures var max := MaxVoltage(i, c, s);
              var vd0 := DemandD(old(vdInt), iqFilter, i, c);
              var vq0 := DemandQ(old(vqInt), idFilter, i, c);
              var d, q := LimitD(vd0, max), LimitQ(vd0, vq0, max, sqrt);
              && Sq(d) + Sq(q) <= Sq(max)
              && ((d, q) == (vd0, vq0) <==> Sq(vd0) + Sq(vq0) <= Sq(max))
              && vdInt + PropD(i, c) - DecD(i, c, iqFilter) == d
              && vqInt + PropQ(i, c) + DecQ(i, c, idFilter) == q
              && modD == Scale(1.5 / i.vBus, d) && modQ == Scale(1.5 / i.vBus, q)
      ensures Value() == LoopStep(old(Value()), i, c, s, sqrt)
      ensures modQFilter == LowPass(old(modQFilter), modQ, 0.2)
      ensures iAbs >= 0.0 && Sq(iAbs) == Sq(id) + Sq(iq)
      ensures iAbsFilter >= 0.0 && Sq(iAbsFilter) == Sq(idFilter) + Sq(iqFilter)
      ensures modAlphaRaw == IparkAlpha(modD, modQ, i.sn, i.cs)
      ensures modBetaRaw == IparkBeta(modD, modQ, i.sn, i.cs)
      ensures vd == ParkD(i.vAlpha, i.vBeta, i.sn, i.cs) && vq == ParkQ(i.vAlpha, i.vBeta, i.sn, i.cs)
      ensures var l := ModCounts(modAlphaRaw, modBetaRaw, i.top, s);
              && Orders(sector, l)
              && Three(duty1, duty2, duty3) == Clamped(DutyCounts(l, i.top), DutyMax(i.top, c.lMaxDuty))
              && (c.overmod <= 1.0 ==>
                    && Three(duty1, duty2, duty3) == DutyCounts(l, i.top)
                    && FollowsDown(Three(duty1, duty2, duty3), l))
    {
      hide *;
      MaxVoltageRadius(i, c, s);
      ghost var before := Loop(vdInt, vqInt, idFilter, iqFilter);
      ValueIs();
      Regulate(i, c);
      DemandIs(before.vdInt, before.vqInt, idFilter, iqFilter, i, c);
      Saturate(MaxVoltage(i, c, s), sqrt);
      SpanOfVoltage(vd, vq, i, c, s);
      Modulate(i, c, s, sqrt);
      // The voltages kept for reporting come from the measured phase voltages.
      vd := ParkD(i.vAlpha, i.vBeta, i.sn, i.cs);
      vq := ParkQ(i.vAlpha, i.vBeta, i.sn, i.cs);
      LoopStepIs(before, i, c, s, sqrt);
      ValueIs();
    }

    lemma ValueIs()
      ensures Value() == Loop(vdInt, vqInt, idFilter, iqFilter)
    {
    }

    /** Park transform, filtered currents, PI controller and decoupling. */
    method Regulate(i: Inputs, c: Config)
      modifies `id, `iq, `idFilter, `iqFilter, `vdInt, `vqInt, `vd, `vq
      ensures id == MeasuredD(i) && iq == MeasuredQ(i)
      ensures idFilter == LowPass(old(idFilter), id, c.filterConst)
      ensures iqFilter == LowPass(old(iqFilter), iq, c.filterConst)
      ensures vdInt == old(vdInt) + StepD(i, c) && vqInt == old(vqInt) + StepQ(i, c)
      ensures vd == vdInt + PropD(i, c) - DecD(i, c, iqFilter)
      ensures vq == vqInt + PropQ(i, c) + DecQ(i, c, idFilter)
    {
      hide *;
      id := MeasuredD(i);
      iq := MeasuredQ(i);
      idFilter := LowPass(idFilter, id, c.filterConst);
      iqFilter := LowPass(iqFilter, iq, c.filterConst);
      vdInt := vdInt + StepD(i, c);
      vqInt := vqInt + StepQ(i, c);
      vd := vdInt + PropD(i, c);
      vq := vqInt + PropQ(i, c);
      vd := vd - DecD(i, c, iqFilter);
      vq := vq + DecQ(i, c, idFilter);
    }

    /** Saturation and anti-windup. */
    method Saturate(max: real, sqrt: real -> real)
      requires IsSqrt(sqrt) && max >= 0.0
      modifies `vdInt, `vqInt, `vd, `vq
      ensures vd == LimitD(old(vd), max) && vq == LimitQ(old(vd), old(vq), max, sqrt)
      ensures vdInt - old(vdInt) == vd - old(vd) && vqInt - old(vqInt) == vq - old(vq)
      ensures Sq(vd) + Sq(vq) <= Sq(max)
      ensures vd == old(vd) && vq == old(vq) <==> Sq(old(vd)) + Sq(old(vq)) <= Sq(max)
    {
      hide Sq, LimitD, SaturateVector, IsSqrt;
      LimiterLaw(vd, vq, max, sqrt);
      var vdPresat := vd;
      vd := LimitD(vd, max);
      vdInt := vdInt + (vd - vdPresat);
      var room := sqrt(Sq(max) - Sq(vd));
      var vqPresat := vq;
      vq := Truncate(vq, -room, room);
      vqInt := vqInt + (vq - vqPresat);
      var (d, q) := SaturateVector(vd, vq, max, sqrt);
      vd, vq := d, q;
    }

    method Normalise(i: Inputs, sqrt: real -> real)
      requires IsSqrt(sqrt) && i.vBus > 0.0
      modifies `modD, `modQ, `modQFilter, `iAbs, `iAbsFilter, `modAlphaRaw, `modBetaRaw
      ensures modD == Scale(1.5 / i.vBus, vd) && modQ == Scale(1.5 / i.vBus, vq)
      ensures modQFilter == LowPass(old(modQFilter), modQ, 0.2)
      ensures iAbs >= 0.0 && Sq(iAbs) == Sq(id) + Sq(iq)
      ensures iAbsFilter >= 0.0 && Sq(iAbsFilter) == Sq(idFilter) + Sq(iqFilter)
      ensures modAlphaRaw == IparkAlpha(modD, modQ, i.sn, i.cs)
      ensures modBetaRaw == IparkBeta(modD, modQ, i.sn, i.cs)
    {
      hide IsSqrt, Sq, Scale, IparkAlpha, IparkBeta, LowPass;
      modD := Scale(1.5 / i.vBus, vd);
      modQ := Scale(1.5 / i.vBus, vq);
      modQFilter := LowPass(modQFilter, modQ, 0.2);
      Magnitudes(sqrt);
      modAlphaRaw := IparkAlpha(modD, modQ, i.sn, i.cs);
      modBetaRaw := IparkBeta(modD, modQ, i.sn, i.cs);
    }

    /** The lengths of the current vectors. */
    method Magnitudes(sqrt: real -> real)
      requires IsSqrt(sqrt)
      modifies `iAbs, `iAbsFilter
      ensures iAbs >= 0.0 && Sq(iAbs) == Sq(id) + Sq(iq)
      ensures iAbsFilter >= 0.0 && Sq(iAbsFilter) == Sq(idFilter) + Sq(iqFilter)
    {
      SquareNonNegative(id);
      SquareNonNegative(iq);
      SquareNonNegative(idFilter);
      SquareNonNegative(iqFilter);
      hide Sq;
      iAbs := sqrt(Sq(id) + Sq(iq));
      iAbsFilter := sqrt(Sq(idFilter) + Sq(iqFilter));
    }

    /** Normalisation, inverse Park transform and space-vector modulation. */
    method Modulate(i: Inputs, c: Config, s: real, sqrt: real -> real)
      requires IsSqrt(sqrt)
      requires s > 0.0 && i.vBus > 0.0 && 0.0 <= c.lMaxDuty <= 1.0 && 0.0 <= c.overmod
      requires 0 <= i.top && i.top as real + Scale(i.top as real, c.overmod) < 0x8000_0000 as real
      requires var md, mq := Scale(1.5 / i.vBus, vd), Scale(1.5 / i.vBus, vq);
               Span(ModLevels(IparkAlpha(md, mq, i.sn, i.cs), IparkBeta(md, mq, i.sn, i.cs), s))
                 <= Scale(MaxDuty(i, c), c.overmod)
      modifies `modD, `modQ, `modQFilter, `iAbs, `iAbsFilter, `modAlphaRaw, `modBetaRaw, `sector, `duty1, `duty2, `duty3
      ensures modD == Scale(1.5 / i.vBus, vd) && modQ == Scale(1.5 / i.vBus, vq)
      ensures modQFilter == LowPass(old(modQFilter), modQ, 0.2)
      ensures iAbs >= 0.0 && Sq(iAbs) == Sq(id) + Sq(iq)
      ensures iAbsFilter >= 0.0 && Sq(iAbsFilter) == Sq(idFilter) + Sq(iqFilter)
      ensures modAlphaRaw == IparkAlpha(modD, modQ, i.sn, i.cs)
      ensures modBetaRaw == IparkBeta(modD, modQ, i.sn, i.cs)
      ensures var l := ModCounts(modAlphaRaw, modBetaRaw, i.top, s);
              && Orders(sector, l)
              && Three(duty1, duty2, duty3) == Clamped(DutyCounts(l, i.top), DutyMax(i.top, c.lMaxDuty))
              && (c.overmod <= 1.0 ==>
                    && Three(duty1, duty2, duty3) == DutyCounts(l, i.top)
                    && FollowsDown(Three(duty1, duty2, duty3), l))
    {
      hide FollowsDown, IsSqrt, Sq, Scale, Span, ModLevels, ModCounts, IparkAlpha, IparkBeta, MaxDuty, DutyMax,
           DutyCounts, Orders, LowPass;
      Normalise(i, sqrt);
      VectorFits(modAlphaRaw, modBetaRaw, i, c, s);
      if c.overmod <= 1.0 {
        DutiesFollowVoltage(modAlphaRaw, modBetaRaw, i.top, s);
      }
      var tA, tB, tC, sec := FocSvm(modAlphaRaw, modBetaRaw, c.lMaxDuty, i.top, s);
      duty1, duty2, duty3, sector := tA, tB, tC, sec;
    }
  }

  // ----- The controller is a PI controller with feedforward -----------------------------

  /** Target less measured current, the measurement being the projection of the stator current onto
      the axis. */
  function ErrorD(i: Inputs): real { i.idTarget - (i.cs * i.iAlpha + i.sn * i.iBeta) }

  function ErrorQ(i: Inputs): real { i.iqTarget - (i.cs * i.iBeta - i.sn * i.iAlpha) }

  /** The integral gain in force, times the sampling time. */
  function KiDt(i: Inputs, c: Config): real { (if c.tempComp then i.kiTempComp else c.ki) * i.dt }

  /** The d-axis gain: one up to the configured modulation depth, then falling linearly to its value
      at full modulation, and never below that. */
  lemma DGainLaw(i: Inputs, c: Config)
    requires 0.0 <= c.gainMaxMod <= 1.0 && c.lMaxDuty >= 0.0
    ensures var depth := if MaxDuty(i, c) < 0.01 then 1.0 else Abs(i.dutyNow / MaxDuty(i, c));
            var share := (depth - c.gainStart) / (1.0 - (if c.gainStart < 0.99 then c.gainStart else 0.0));
      && c.gainMaxMod <= DGain(i, c) <= 1.0
      && (c.gainStart >= 0.99 || depth <= c.gainStart ==> DGain(i, c) == 1.0)
      && (c.gainStart < 0.99 && c.gainStart < depth <= 1.0 ==>
            DGain(i, c) == 1.0 - share * (1.0 - c.gainMaxMod))
      && (c.gainStart < 0.99 && depth >= 1.0 ==> DGain(i, c) == c.gainMaxMod)
  {
    var depth := if MaxDuty(i, c) < 0.01 then 1.0 else Abs(i.dutyNow / MaxDuty(i, c));
    if c.gainStart < 0.99 {
      MapLaw(depth, c.gainStart, c.gainMaxMod);
    }
    hide MaxDuty, Abs, Map;
  }

  /** Between 1 at `start` and `end` at full depth, on the straight line. */
  lemma MapLaw(depth: real, start: real, end: real)
    requires start < 1.0 && end <= 1.0
    ensures var share := (depth - start) / (1.0 - start);
            Map(depth, start, 1.0, 1.0, end) == 1.0 - share * (1.0 - end)
    ensures depth >= start ==> Map(depth, start, 1.0, 1.0, end) <= 1.0
    ensures depth >= 1.0 ==> Map(depth, start, 1.0, 1.0, end) <= end
    ensures depth <= 1.0 ==> Map(depth, start, 1.0, 1.0, end) >= end
  {
    hide Map;
    var share := (depth - start) / (1.0 - start);
    MapIs(depth, start, 1.0, 1.0, end);
    ShareOrder(depth - start, 1.0 - start);
    ShareBounds(share, end);
  }

  lemma MapIs(x: real, inMin: real, inMax: real, outMin: real, outMax: real)
    requires inMin < inMax
    ensures Map(x, inMin, inMax, outMin, outMax) == outMin + (x - inMin) / (inMax - inMin) * (outMax - outMin)
  {
    QuotientOfProduct(x - inMin, outMax - outMin, inMax - inMin);
  }

  lemma QuotientOfProduct(x: real, y: real, d: real)
    requires d > 0.0
    ensures x * y / d == (x / d) * y
  {
    var q := x / d;
    assert q * d == x;
    assert x * y == (q * y) * d;
  }

  lemma ShareOrder(x: real, d: real)
    requires d > 0.0
    ensures (x >= d ==> x / d >= 1.0) && (x <= d ==> x / d <= 1.0) && (x >= 0.0 ==> x / d >= 0.0)
  {
    if x >= d { QuotientMonotone(d, x, d); }
    if x <= d { QuotientMonotone(x, d, d); }
    if x >= 0.0 { QuotientMonotone(0.0, x, d); }
  }

  lemma ShareBounds(share: real, end: real)
    requires end <= 1.0
    ensures share >= 1.0 ==> 1.0 - share * (1.0 - end) <= end
    ensures share <= 1.0 ==> 1.0 - share * (1.0 - end) >= end
    ensures share >= 0.0 ==> 1.0 - share * (1.0 - end) <= 1.0
    ensures share * (end - 1.0) == -(share * (1.0 - end))
  {
    if share >= 1.0 { NonNegativeProduct(share - 1.0, 1.0 - end); }
    if share <= 1.0 { NonNegativeProduct(1.0 - share, 1.0 - end); }
    if share >= 0.0 { NonNegativeProduct(share, 1.0 - end); }
    assert (share - 1.0) * (1.0 - end) == share * (1.0 - end) - (1.0 - end);
    assert (1.0 - share) * (1.0 - end) == (1.0 - end) - share * (1.0 - end);
  }

  /** The duty limit in force: the size of the request, up to the configured limit. */
  lemma MaxDutyLaw(i: Inputs, c: Config)
    requires c.lMaxDuty >= 0.0
    ensures MaxDuty(i, c) == Min(if i.maxDuty < 0.0 then -i.maxDuty else i.maxDuty, c.lMaxDuty)
  {
  }

  /** The filters go the configured share of the way to the sample. */
  lemma LowPassLaw(value: real, sample: real, k: real)
    ensures LowPass(value, sample, k) - sample == (1.0 - k) * (value - sample)
  {
  }

  /** The feedforward by mode, in the filtered currents, the speed `w`, the inductances and the flux:
      cross coupling takes w*Lq*iq off the d voltage and adds w*Ld*id to the q voltage, the back-EMF
      adds w*flux to the q voltage. */
  lemma FeedforwardLaw(i: Inputs, c: Config, idFilter: real, iqFilter: real)
    ensures var w, d, q := i.speed, DecD(i, c, iqFilter), DecQ(i, c, idFilter);
      && (!i.decouple || c.decoupling == Disabled ==> d == 0.0 && q == 0.0)
      && (i.decouple && c.decoupling == Cross ==> d == w * i.lq * iqFilter && q == w * i.ld * idFilter)
      && (i.decouple && c.decoupling == Bemf ==> d == 0.0 && q == w * c.flux)
      && (i.decouple && c.decoupling == CrossBemf ==> d == w * i.lq * iqFilter && q == w * i.ld * idFilter + w * c.flux)
  {
  }

  /** What the regulator asks for: the integrator, the gains on the error, and the feedforward,
      which counts against the d voltage and for the q voltage. */
  lemma DemandLaw(vdInt: real, vqInt: real, idFilter: real, iqFilter: real, i: Inputs, c: Config)
    ensures DemandD(vdInt, iqFilter, i, c) ==
              vdInt + DGain(i, c) * ((c.kp + KiDt(i, c)) * ErrorD(i)) - DecD(i, c, iqFilter)
    ensures DemandQ(vqInt, idFilter, i, c) ==
              vqInt + (c.kp + KiDt(i, c)) * ErrorQ(i) + DecQ(i, c, idFilter)
  {
    var ki, g := if c.tempComp then i.kiTempComp else c.ki, DGain(i, c);
    GainsOnError(ErrorD(i), c.kp, ki, g, i.dt);
    GainsOnError(ErrorQ(i), c.kp, ki, 1.0, i.dt);
    hide DGain, DecD, DecQ;
  }

  lemma GainsOnError(e: real, kp: real, ki: real, g: real, dt: real)
    ensures e * (ki * g * dt) + e * kp * g == g * ((kp + ki * dt) * e)
    ensures e * (ki * dt) + e * kp == (kp + ki * dt) * e
  {
  }

  /** Without error and feedforward the demand is the integrators; a higher target raises its own
      axis by the gains on the rise, and nothing else. */
  lemma TargetLaw(vdInt: real, vqInt: real, idFilter: real, iqFilter: real, i: Inputs, c: Config, x: real)
    ensures ErrorD(i) == ErrorQ(i) == 0.0 && (!i.decouple || c.decoupling == Disabled) ==>
              DemandD(vdInt, iqFilter, i, c) == vdInt && DemandQ(vqInt, idFilter, i, c) == vqInt
    ensures var j := i.(iqTarget := i.iqTarget + x);
      && DemandQ(vqInt, idFilter, j, c) == DemandQ(vqInt, idFilter, i, c) + (c.kp + KiDt(i, c)) * x
      && DemandD(vdInt, iqFilter, j, c) == DemandD(vdInt, iqFilter, i, c)
    ensures var j := i.(idTarget := i.idTarget + x);
      && DemandD(vdInt, iqFilter, j, c) == DemandD(vdInt, iqFilter, i, c) + DGain(i, c) * ((c.kp + KiDt(i, c)) * x)
      && DemandQ(vqInt, idFilter, j, c) == DemandQ(vqInt, idFilter, i, c)
  {
    hide DGain, DecD, DecQ, DemandD, DemandQ, KiDt, ErrorD, ErrorQ;
    var k := c.kp + KiDt(i, c);
    DemandLaw(vdInt, vqInt, idFilter, iqFilter, i, c);
    DemandLaw(vdInt, vqInt, idFilter, iqFilter, i.(iqTarget := i.iqTarget + x), c);
    DemandLaw(vdInt, vqInt, idFilter, iqFilter, i.(idTarget := i.idTarget + x), c);
    FeedforwardLaw(i, c, idFilter, iqFilter);
    TargetUnread(i, c, idFilter, iqFilter, x);
    RaisedBy(1.0, k, ErrorQ(i), x);
    RaisedBy(DGain(i, c), k, ErrorD(i), x);
  }

  lemma RaisedBy(g: real, k: real, e: real, x: real)
    ensures g * (k * (e + x)) == g * (k * e) + g * (k * x) && k * (e + x) == k * e + k * x
    ensures e == 0.0 ==> k * e == 0.0 && g * (k * e) == 0.0
  {
    assert k * (e + x) == k * e + k * x;
    assert g * (k * e + k * x) == g * (k * e) + g * (k * x);
  }

  lemma TargetUnread(i: Inputs, c: Config, idFilter: real, iqFilter: real, x: real)
    ensures var jq, jd := i.(iqTarget := i.iqTarget + x), i.(idTarget := i.idTarget + x);
      && DGain(jq, c) == DGain(jd, c) == DGain(i, c) && KiDt(jq, c) == KiDt(jd, c) == KiDt(i, c)
      && DecD(jq, c, iqFilter) == DecD(jd, c, iqFilter) == DecD(i, c, iqFilter)
      && DecQ(jq, c, idFilter) == DecQ(jd, c, idFilter) == DecQ(i, c, idFilter)
      && ErrorQ(jq) == ErrorQ(i) + x && ErrorD(jd) == ErrorD(i) + x
      && ErrorD(jq) == ErrorD(i) && ErrorQ(jd) == ErrorQ(i)
  {
    hide Abs, Truncate, Map, Max;
    ErrorsRise(i, x);
    hide ErrorD, ErrorQ;
  }

  lemma ErrorsRise(i: Inputs, x: real)
    ensures var jq, jd := i.(iqTarget := i.iqTarget + x), i.(idTarget := i.idTarget + x);
      && ErrorQ(jq) == ErrorQ(i) + x && ErrorD(jd) == ErrorD(i) + x
      && ErrorD(jq) == ErrorD(i) && ErrorQ(jd) == ErrorQ(i)
  {
  }

  /** A run of the controller under one configuration. */
  function LoopRun(l: Loop, inputs: seq<Inputs>, c: Config, s: real, sqrt: real -> real): Loop
    requires s > 0.0
    decreases |inputs|
  {
    if inputs == [] then l else
      var last := |inputs| - 1;
      LoopStep(LoopRun(l, inputs[..last], c, s, sqrt), inputs[last], c, s, sqrt)
  }

  /** The voltages that the last call of a run asks for. */
  function Asked(l: Loop, inputs: seq<Inputs>, c: Config, s: real, sqrt: real -> real): (real, real)
    requires s > 0.0 && inputs != []
  {
    var last := |inputs| - 1;
    var before, after, i := LoopRun(l, inputs[..last], c, s, sqrt), LoopRun(l, inputs, c, s, sqrt), inputs[last];
    (DemandD(before.vdInt, after.iqFilter, i, c), DemandQ(before.vqInt, after.idFilter, i, c))
  }

  /** Every call of the run asks for a voltage inside its circle. */
  ghost predicate Inside(l: Loop, inputs: seq<Inputs>, c: Config, s: real, sqrt: real -> real)
    requires s > 0.0
    decreases |inputs|
  {
    inputs == [] ||
    var last := |inputs| - 1;
    var (d, q) := Asked(l, inputs, c, s, sqrt);
    Inside(l, inputs[..last], c, s, sqrt) && Sq(d) + Sq(q) <= Sq(MaxVoltage(inputs[last], c, s))
      && MaxVoltage(inputs[last], c, s) >= 0.0
  }

  /** Integral and proportional part of a call. */
  function GainedD(i: Inputs, c: Config, k: real): real { DGain(i, c) * (k * ErrorD(i)) }

  function GainedQ(i: Inputs, k: real): real { k * ErrorQ(i) }

  /** The integral parts of a run: gain, sampling time and error of every call. */
  function IntegralD(inputs: seq<Inputs>, c: Config): real
    decreases |inputs|
  {
    if inputs == [] then 0.0 else
      var i := inputs[|inputs| - 1];
      IntegralD(inputs[..|inputs| - 1], c) + GainedD(i, c, KiDt(i, c))
  }

  function IntegralQ(inputs: seq<Inputs>, c: Config): real
    decreases |inputs|
  {
    if inputs == [] then 0.0 else
      var i := inputs[|inputs| - 1];
      IntegralQ(inputs[..|inputs| - 1], c) + GainedQ(i, KiDt(i, c))
  }

  /** Over every run inside the circle the controller is a PI controller with feedforward: it asks
      for the start of the integrator, the integral parts of all the errors so far, the proportional
      part of the last one, and the feedforward. */
  lemma {:induction false} ControllerIsPi(l: Loop, inputs: seq<Inputs>, c: Config, s: real, sqrt: real -> real)
    requires s > 0.0 && IsSqrt(sqrt) && Inside(l, inputs, c, s, sqrt)
    ensures var n := LoopRun(l, inputs, c, s, sqrt);
      && n.vdInt == l.vdInt + IntegralD(inputs, c) && n.vqInt == l.vqInt + IntegralQ(inputs, c)
      && (inputs != [] ==>
            var i, (d, q) := inputs[|inputs| - 1], Asked(l, inputs, c, s, sqrt);
            && d == l.vdInt + IntegralD(inputs, c) + GainedD(i, c, c.kp) - DecD(i, c, n.iqFilter)
            && q == l.vqInt + IntegralQ(inputs, c) + GainedQ(i, c.kp) + DecQ(i, c, n.idFilter))
    decreases |inputs|
  {
    if inputs != [] {
      hide LoopStep, Sq, MaxVoltage, DGain, DecD, DecQ, KiDt, GainedD, GainedQ, DemandD, DemandQ, IsSqrt;
      var last := |inputs| - 1;
      ControllerIsPi(l, inputs[..last], c, s, sqrt);
      InsideStep(LoopRun(l, inputs[..last], c, s, sqrt), inputs[last], c, s, sqrt);
    }
  }

  /** One call inside the circle. */
  lemma InsideStep(l: Loop, i: Inputs, c: Config, s: real, sqrt: real -> real)
    requires s > 0.0 && IsSqrt(sqrt) && MaxVoltage(i, c, s) >= 0.0
    requires var n := LoopStep(l, i, c, s, sqrt);
             Sq(DemandD(l.vdInt, n.iqFilter, i, c)) + Sq(DemandQ(l.vqInt, n.idFilter, i, c)) <= Sq(MaxVoltage(i, c, s))
    ensures var n := LoopStep(l, i, c, s, sqrt);
      && n.vdInt == l.vdInt + GainedD(i, c, KiDt(i, c)) && n.vqInt == l.vqInt + GainedQ(i, KiDt(i, c))
      && DemandD(l.vdInt, n.iqFilter, i, c) == n.vdInt + GainedD(i, c, c.kp) - DecD(i, c, n.iqFilter)
      && DemandQ(l.vqInt, n.idFilter, i, c) == n.vqInt + GainedQ(i, c.kp) + DecQ(i, c, n.idFilter)
  {
    hide LoopStep, Sq, MaxVoltage, DGain, DecD, DecQ, KiDt, ErrorD, ErrorQ, DemandD, DemandQ, IsSqrt, LimitD, LimitQ,
         LowPass, StepD, StepQ, MeasuredD, MeasuredQ, SaturateVector;
    var n := LoopStep(l, i, c, s, sqrt);
    LoopStepIs(l, i, c, s, sqrt);
    var d, q := DemandD(l.vdInt, n.iqFilter, i, c), DemandQ(l.vqInt, n.idFilter, i, c);
    LimiterLaw(d, q, MaxVoltage(i, c, s), sqrt);
    DemandLaw(l.vdInt, l.vqInt, n.idFilter, n.iqFilter, i, c);
    StepLaw(i, c);
    SplitGains(DGain(i, c), c.kp, KiDt(i, c), ErrorD(i));
    SplitGains(1.0, c.kp, KiDt(i, c), ErrorQ(i));
  }

  lemma StepLaw(i: Inputs, c: Config)
    ensures StepD(i, c) == DGain(i, c) * (KiDt(i, c) * ErrorD(i)) && StepQ(i, c) == KiDt(i, c) * ErrorQ(i)
  {
    GainsOnError(ErrorD(i), 0.0, if c.tempComp then i.kiTempComp else c.ki, DGain(i, c), i.dt);
    hide DGain;
  }

  lemma SplitGains(g: real, kp: real, k: real, e: real)
    ensures g * ((kp + k) * e) == g * (k * e) + g * (kp * e) && (kp + k) * e == k * e + kp * e
  {
  }

  /** With constant gain and sampling time the integral part is that factor times the sum of the
      errors. */
  lemma {:induction false} IntegralIsSum(inputs: seq<Inputs>, c: Config, k: real)
    requires forall j :: 0 <= j < |inputs| ==> KiDt(inputs[j], c) == k
    ensures IntegralQ(inputs, c) == k * ErrorSumQ(inputs)
    decreases |inputs|
  {
    if inputs == [] {
      assert k * 0.0 == 0.0;
    } else {
      hide KiDt, ErrorQ;
      var last := |inputs| - 1;
      IntegralIsSum(inputs[..last], c, k);
      assert k * (ErrorSumQ(inputs[..last]) + ErrorQ(inputs[last]))
          == k * ErrorSumQ(inputs[..last]) + k * ErrorQ(inputs[last]);
    }
  }

  function ErrorSumQ(inputs: seq<Inputs>): real
    decreases |inputs|
  {
    if inputs == [] then 0.0 else ErrorSumQ(inputs[..|inputs| - 1]) + ErrorQ(inputs[|inputs| - 1])
  }

  /** The clamps at the end of `foc_svm`. */
  function Clamped(d: Three<int>, max: int): Three<int> {
    Three(TruncateInt(d.u, 0, max), TruncateInt(d.v, 0, max), TruncateInt(d.w, 0, max))
  }

  /** The on-times of a limited vector fit C's `int`, and its duties the clamps. */
  lemma VectorFits(alpha: real, beta: real, i: Inputs, c: Config, s: real)
    requires s > 0.0 && 0.0 <= c.lMaxDuty <= 1.0 && 0.0 <= c.overmod
    requires 0 <= i.top && i.top as real + Scale(i.top as real, c.overmod) < 0x8000_0000 as real
    requires Span(ModLevels(alpha, beta, s)) <= Scale(MaxDuty(i, c), c.overmod)
    ensures i.top as real + Span(ModCounts(alpha, beta, i.top, s)) < 0x8000_0000 as real
    ensures c.overmod <= 1.0 ==>
              var d := DutyCounts(ModCounts(alpha, beta, i.top, s), i.top);
              Clamped(d, DutyMax(i.top, c.lMaxDuty)) == d && Span(ModCounts(alpha, beta, i.top, s)) <= i.top as real
  {
    hide Scale, ModLevels, ModCounts, Span, MaxDuty, DutyMax, DutyCount;
    var p := i.top as real;
    DutyOvermod(i, c);
    ScaleOrderLeft(c.lMaxDuty, 1.0, c.overmod);
    ScaleOrder(p, Span(ModLevels(alpha, beta, s)), c.overmod);
    SpanModCounts(alpha, beta, i.top, s);
    if c.overmod <= 1.0 {
      ScaleOrder(c.lMaxDuty, c.overmod, 1.0);
      ScaleOne(c.lMaxDuty);
      ClampsIdle(alpha, beta, i.top, c.lMaxDuty, s);
      var l := ModCounts(alpha, beta, i.top, s);
      assert IsLevel(l, l.u) && IsLevel(l, l.v) && IsLevel(l, l.w);
    }
  }

  /** On-times: the differences are those of the levels, downward, to within two counts. */
  predicate FollowsDown(d: Three<int>, l: Levels) {
    && -2.0 < (d.u - d.v) as real - (l.v - l.u) < 2.0
    && -2.0 < (d.v - d.w) as real - (l.w - l.v) < 2.0
    && -2.0 < (d.w - d.u) as real - (l.u - l.w) < 2.0
  }

  /** Read as on-times, the duties realise the requested line voltages to within two counts. */
  lemma DutiesFollowVoltage(alpha: real, beta: real, top: int, s: real)
    requires s > 0.0 && 0 <= top && Span(ModCounts(alpha, beta, top, s)) <= top as real
    ensures var l := ModCounts(alpha, beta, top, s);
            var d := DutyCounts(l, top);
      && FollowsDown(d, l)
      && top - 1 <= DutyCount(l, top, Lo(l)) + DutyCount(l, top, Hi(l)) <= top
  {
    hide DutyCount, Lo, Hi, Span, ModCounts;
    var l := ModCounts(alpha, beta, top, s);
    DutyPair(l, top, l.u, l.v);
    DutyPair(l, top, l.v, l.w);
    DutyPair(l, top, l.w, l.u);
  }

  lemma DutyPair(l: Levels, top: int, x: real, y: real)
    requires IsLevel(l, x) && IsLevel(l, y) && Span(l) <= top as real
    ensures -2.0 < (DutyCount(l, top, x) - DutyCount(l, top, y)) as real - (y - x) < 2.0
    ensures top - 1 <= DutyCount(l, top, Lo(l)) + DutyCount(l, top, Hi(l)) <= top
  {
    if x <= y { DutyCountLaw(l, top, x, y); } else { DutyCountLaw(l, top, y, x); }
  }

  lemma ScaleOrderLeft(a: real, b: real, x: real)
    requires a <= b && x >= 0.0
    ensures Scale(a, x) <= Scale(b, x)
    ensures Scale(1.0, x) == x
  {
    MulOrder(a, b, x);
  }
}
