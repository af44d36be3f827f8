/** Space-vector modulation, as the firmware writes it three times (`SVPWM_Calc`, `svm`,
    `foc_svm`), against one law that mentions no sector. */
module SpaceVector {
  import opened Numeric

  // ----- The sector-free law ------------------------------------------------------------

  /** One value for each of the phases U, V and W. */
  datatype Three<T> = Three(u: T, v: T, w: T)

  /** The instants at which the phases switch on, up to a common shift: a later instant is a
      lower phase voltage, so `v - u` is the line voltage U-V in counts. */
  type Levels = Three<real>

  function Lo(l: Levels): real { Min(l.u, Min(l.v, l.w)) }

  function Hi(l: Levels): real { Max(l.u, Max(l.v, l.w)) }

  function Mid(l: Levels): real { l.u + l.v + l.w - Lo(l) - Hi(l) }

  function Span(l: Levels): real { Hi(l) - Lo(l) }

  ghost predicate IsLevel(l: Levels, x: real) { x == l.u || x == l.v || x == l.w }

  /** Only the line voltages are given: put phase U at zero. */
  function LineLevels(uv: real, vw: real): Levels { Three(0.0, uv, uv + vw) }

  /** `t` realises the line voltages of `l` and sits centred in a period of `peak`. */
  predicate Realises(t: Levels, l: Levels, peak: real) {
    t.v - t.u == l.v - l.u && t.w - t.v == l.w - l.v && Lo(t) + Hi(t) == peak
  }

  /** Line voltages and centring leave no freedom: two realisations are equal. */
  lemma RealisesUnique(t1: Levels, t2: Levels, l: Levels, peak: real)
    requires Realises(t1, l, peak) && Realises(t2, l, peak)
    ensures t1 == t2
  {
    var d := t2.u - t1.u;
    assert Lo(t2) == Lo(t1) + d && Hi(t2) == Hi(t1) + d;
  }

  /** Whole counts from the lowest level up to level `x`, each of the two legs truncated. */
  function Rise(l: Levels, x: real): int {
    (Min(x, Mid(l)) - Lo(l)).Floor + (Max(x, Mid(l)) - Mid(l)).Floor
  }

  /** Compare count of level `x` when counts are switch-on instants. */
  function OnCount(l: Levels, peak: int, x: real): int {
    (peak as real - Span(l)).Floor / 2 + Rise(l, x)
  }

  /** Compare count of level `x` when counts are on-times: the mirror image. */
  function DutyCount(l: Levels, peak: int, x: real): int {
    (peak + Rise(l, Hi(l))) / 2 - Rise(l, x)
  }

  function OnCounts(l: Levels, peak: int): Three<int> {
    Three(OnCount(l, peak, l.u), OnCount(l, peak, l.v), OnCount(l, peak, l.w))
  }

  function DutyCounts(l: Levels, peak: int): Three<int> {
    Three(DutyCount(l, peak, l.u), DutyCount(l, peak, l.v), DutyCount(l, peak, l.w))
  }

  lemma LevelsOrdered(l: Levels, x: real)
    requires IsLevel(l, x)
    ensures Lo(l) <= Mid(l) <= Hi(l)
    ensures x == Lo(l) || x == Mid(l) || x == Hi(l)
  {
  }

  /** Truncation loses less than two counts. */
  lemma RiseLaw(l: Levels, x: real)
    requires IsLevel(l, x)
    ensures Rise(l, Lo(l)) == 0 <= Rise(l, x) <= Rise(l, Hi(l))
    ensures x - Lo(l) - 2.0 < Rise(l, x) as real <= x - Lo(l)
  {
    LevelsOrdered(l, x);
    hide Lo, Mid, Hi;
  }

  lemma RiseMonotone(l: Levels, x: real, y: real)
    requires IsLevel(l, x) && IsLevel(l, y) && x <= y
    ensures Rise(l, x) <= Rise(l, y)
    ensures y - x - 2.0 < (Rise(l, y) - Rise(l, x)) as real < y - x + 2.0
  {
  }

  /** Two switch-on counts differ by their line voltage within two counts and keep the order
      of the phases; the counts are centred to within four and stay inside the period. */
  lemma OnCountLaw(l: Levels, peak: int, x: real, y: real)
    requires IsLevel(l, x) && IsLevel(l, y) && x <= y && Span(l) <= peak as real
    ensures -2.0 < (OnCount(l, peak, y) - OnCount(l, peak, x)) as real - (y - x) < 2.0
    ensures 0 <= OnCount(l, peak, x) <= OnCount(l, peak, y)
    ensures OnCount(l, peak, y) as real <= (peak as real + Span(l)) / 2.0
    ensures peak - 4 < OnCount(l, peak, Lo(l)) + OnCount(l, peak, Hi(l)) <= peak
  {
    RiseLaw(l, x);
    RiseLaw(l, y);
    RiseMonotone(l, x, y);
    RiseLaw(l, Hi(l));
    hide Rise, Mid;
  }

  /** The same for on-times, whose differences have the opposite sign and whose centring is
      off by at most one count. */
  lemma DutyCountLaw(l: Levels, peak: int, x: real, y: real)
    requires IsLevel(l, x) && IsLevel(l, y) && x <= y && Span(l) <= peak as real
    ensures -2.0 < (DutyCount(l, peak, x) - DutyCount(l, peak, y)) as real - (y - x) < 2.0
    ensures 0 <= DutyCount(l, peak, y) <= DutyCount(l, peak, x)
    ensures DutyCount(l, peak, x) as real <= (peak as real + Span(l)) / 2.0
    ensures peak - 1 <= DutyCount(l, peak, Lo(l)) + DutyCount(l, peak, Hi(l)) <= peak
  {
    RiseLaw(l, x);
    RiseLaw(l, y);
    RiseMonotone(l, x, y);
    RiseLaw(l, Hi(l));
    hide Rise, Mid;
  }

  /** Both integer forms approximate the real-valued one: counted as switch-on instants they
      fall short of it by less than three counts, counted as on-times they mirror it. */
  lemma CountsNearCentred(t: Levels, l: Levels, peak: int)
    requires Realises(t, l, peak as real)
    ensures -3.0 < OnCount(l, peak, l.u) as real - t.u <= 0.0
    ensures -3.0 < OnCount(l, peak, l.v) as real - t.v <= 0.0
    ensures -3.0 < OnCount(l, peak, l.w) as real - t.w <= 0.0
    ensures -2.0 < DutyCount(l, peak, l.u) as real - (peak as real - t.u) < 2.0
    ensures -2.0 < DutyCount(l, peak, l.v) as real - (peak as real - t.v) < 2.0
    ensures -2.0 < DutyCount(l, peak, l.w) as real - (peak as real - t.w) < 2.0
  {
    CentredAt(t, l, peak as real);
    RiseLaw(l, l.u);
    RiseLaw(l, l.v);
    RiseLaw(l, l.w);
    RiseLaw(l, Hi(l));
    hide Rise, Mid, Lo, Hi, Realises;
  }

  lemma CentredAt(t: Levels, l: Levels, peak: real)
    requires Realises(t, l, peak)
    ensures t.u == l.u - Lo(l) + (peak - Span(l)) / 2.0
    ensures t.v == l.v - Lo(l) + (peak - Span(l)) / 2.0
    ensures t.w == l.w - Lo(l) + (peak - Span(l)) / 2.0
  {
    var d := t.u - l.u;
    assert Lo(t) == Lo(l) + d && Hi(t) == Hi(l) + d;
  }

  // ----- Sectors ------------------------------------------------------------------------

  /** A sector number names the order in which the phases switch on. */
  function Arrange<T>(sector: int, near: T, middle: T, far: T): Three<T> {
    match sector
    case 1 => Three(near, middle, far)
    case 2 => Three(middle, near, far)
    case 3 => Three(far, near, middle)
    case 4 => Three(far, middle, near)
    case 5 => Three(middle, far, near)
    case _ => Three(near, far, middle)
  }

  predicate Orders(sector: int, l: Levels) {
    1 <= sector <= 6 && l == Arrange(sector, Lo(l), Mid(l), Hi(l))
  }

  /** With U at zero, `f1` and `f2` are the legs from the near to the far level. */
  predicate Legs(sector: int, l: Levels, f1: real, f2: real) {
    && l.u == 0.0
    && match sector
       case 1 => l.v == f1 && l.w == f1 + f2
       case 2 => l.v == -f1 && l.w == f2
       case 3 => l.v == -(f1 + f2) && l.w == -f2
       case 4 => l.v == -f2 && l.w == -(f1 + f2)
       case 5 => l.v == f2 && l.w == -f1
       case 6 => l.v == f1 + f2 && l.w == f1
       case _ => false
  }

  lemma LegsOrder(sector: int, l: Levels, f1: real, f2: real)
    requires Legs(sector, l, f1, f2) && f1 >= 0.0 && f2 >= 0.0
    ensures Orders(sector, l)
    ensures Mid(l) - Lo(l) == f1 && Hi(l) - Mid(l) == f2
  {
  }

  lemma LegsScale(sector: int, l: Levels, f1: real, f2: real, k: real, l': Levels)
    requires Legs(sector, l, f1, f2)
    requires l'.u == 0.0 && l'.v == Scale(k, l.v) && l'.w == Scale(k, l.w)
    ensures Legs(sector, l', Scale(k, f1), Scale(k, f2))
  {
    Distribute(k, f1, f2);
    hide Scale;
    match sector
    case 1 => assert l == Three(0.0, f1, f1 + f2);
    case 2 => assert l == Three(0.0, -f1, f2);
    case 3 => assert l == Three(0.0, -(f1 + f2), -f2);
    case 4 => assert l == Three(0.0, -f2, -(f1 + f2));
    case 5 => assert l == Three(0.0, f2, -f1);
    case 6 => assert l == Three(0.0, f1 + f2, f1);
  }

  lemma Distribute(k: real, x: real, y: real)
    ensures Scale(k, x + y) == Scale(k, x) + Scale(k, y)
    ensures Scale(k, -x) == -Scale(k, x)
    ensures Scale(k, -y) == -Scale(k, y)
    ensures Scale(k, -(x + y)) == -Scale(k, x) - Scale(k, y)
  {
  }

  /** The counts of the three phases, from the two legs of the sector. */
  lemma OnCountsOfLegs(sector: int, l: Levels, peak: int, f1: real, f2: real)
    requires Legs(sector, l, f1, f2) && f1 >= 0.0 && f2 >= 0.0
    ensures Orders(sector, l) && Span(l) == f1 + f2
    ensures var near := (peak as real - f1 - f2).Floor / 2;
            OnCounts(l, peak) == Arrange(sector, near, near + f1.Floor, near + f1.Floor + f2.Floor)
  {
    LegsOrder(sector, l, f1, f2);
    LegOnCounts(l, peak, f1, f2);
    hide OnCount, Lo, Mid, Hi, Span, Legs;
  }

  lemma LegOnCounts(l: Levels, peak: int, f1: real, f2: real)
    requires 0.0 <= f1 == Mid(l) - Lo(l) && 0.0 <= f2 == Hi(l) - Mid(l)
    ensures Span(l) == f1 + f2
    ensures var near := (peak as real - f1 - f2).Floor / 2;
      && OnCount(l, peak, Lo(l)) == near
      && OnCount(l, peak, Mid(l)) == near + f1.Floor
      && OnCount(l, peak, Hi(l)) == near + f1.Floor + f2.Floor
  {
    assert peak as real - Span(l) == peak as real - f1 - f2;
    hide Lo, Mid, Hi;
  }

  lemma DutyCountsOfLegs(sector: int, l: Levels, peak: int, f1: real, f2: real)
    requires Legs(sector, l, f1, f2) && f1 >= 0.0 && f2 >= 0.0
    ensures Orders(sector, l) && Span(l) == f1 + f2
    ensures var near := (peak + f1.Floor + f2.Floor) / 2;
            DutyCounts(l, peak) == Arrange(sector, near, near - f1.Floor, near - f1.Floor - f2.Floor)
  {
    LegsOrder(sector, l, f1, f2);
    LegDutyCounts(l, peak, f1, f2);
    hide DutyCount, Lo, Mid, Hi, Legs;
  }

  lemma LegDutyCounts(l: Levels, peak: int, f1: real, f2: real)
    requires 0.0 <= f1 == Mid(l) - Lo(l) && 0.0 <= f2 == Hi(l) - Mid(l)
    ensures var near := (peak + f1.Floor + f2.Floor) / 2;
      && DutyCount(l, peak, Lo(l)) == near
      && DutyCount(l, peak, Mid(l)) == near - f1.Floor
      && DutyCount(l, peak, Hi(l)) == near - f1.Floor - f2.Floor
  {
    hide Lo, Mid, Hi;
  }

  // ----- `SVPWM_Calc` -------------------------------------------------------------------

  /** Volts to counts, in the order the firmware multiplies. */
  function Gain(volts: real, vbus: real, peak: int): real
    requires vbus > 0.0
  {
    (volts * (1.0 / vbus)) * peak as real
  }

  lemma GainScale(x: real, k: real, vbus: real, peak: int)
    requires vbus > 0.0
    ensures Gain(Scale(k, x), vbus, peak) == Scale(k, Gain(x, vbus, peak))
  {
    var g := 1.0 / vbus;
    assert (k * x) * g == k * (x * g);
    assert (k * (x * g)) * peak as real == k * ((x * g) * peak as real);
  }

  lemma GainLinear(x: real, y: real, vbus: real, peak: int)
    requires vbus > 0.0 && peak >= 0
    ensures Gain(x + y, vbus, peak) == Gain(x, vbus, peak) + Gain(y, vbus, peak)
    ensures Gain(-x, vbus, peak) == -Gain(x, vbus, peak)
    ensures x >= 0.0 ==> Gain(x, vbus, peak) >= 0.0
  {
    var g := 1.0 / vbus;
    assert g > 0.0;
    assert (x + y) * g == x * g + y * g;
    assert (-x) * g == -(x * g);
    if x >= 0.0 { assert x * g >= 0.0; }
  }

  /** The line voltages of a stator voltage, in counts; `s` stands for the square root of 3. */
  function VoltageLevels(va: real, vb: real, vbus: real, peak: int, s: real): Levels
    requires vbus > 0.0
  {
    LineLevels(Gain(va * 1.5 - vb * s * 0.5, vbus, peak), Gain(vb * s, vbus, peak))
  }

  lemma VoltageLevelsScale(va: real, vb: real, k: real, vbus: real, peak: int, s: real)
    requires vbus > 0.0
    ensures var l := VoltageLevels(va, vb, vbus, peak, s);
            var l' := VoltageLevels(Scale(k, va), Scale(k, vb), vbus, peak, s);
            l'.u == 0.0 && l'.v == Scale(k, l.v) && l'.w == Scale(k, l.w)
  {
    var uv, vw := va * 1.5 - vb * s * 0.5, vb * s;
    assert (k * va) * 1.5 - (k * vb) * s * 0.5 == k * uv;
    assert (k * vb) * s == k * vw;
    GainScale(uv, k, vbus, peak);
    GainScale(vw, k, vbus, peak);
    Distribute(k, Gain(uv, vbus, peak), Gain(vw, vbus, peak));
    hide Gain;
  }

  /** Volts to counts keeps the legs of the sector. */
  lemma LegsGain(sector: int, uv: real, vw: real, v1: real, v2: real, vbus: real, peak: int)
    requires vbus > 0.0 && peak >= 0
    requires Legs(sector, LineLevels(uv, vw), v1, v2) && v1 >= 0.0 && v2 >= 0.0
    ensures Gain(v1, vbus, peak) >= 0.0 && Gain(v2, vbus, peak) >= 0.0
    ensures Legs(sector, LineLevels(Gain(uv, vbus, peak), Gain(vw, vbus, peak)),
                 Gain(v1, vbus, peak), Gain(v2, vbus, peak))
  {
    GainLinear(v1, v2, vbus, peak);
    GainLinear(v2, v1, vbus, peak);
    GainLinear(v1 + v2, 0.0, vbus, peak);
    GainLinear(uv, vw, vbus, peak);
    hide Gain;
  }

  /** How far a vector of span `want` must shrink for its active times to fill the limit. */
  function Shrink(want: real, limit: real): (k: real)
    requires want > limit >= 0.0
    ensures 0.0 <= k <= 1.0 && Scale(k, want) == limit
  {
    limit / want
  }

  lemma ShrinkLegs(f1: real, f2: real, limit: real, k: real)
    requires f1 >= 0.0 && f2 >= 0.0 && f1 + f2 > limit >= 0.0 && k == Shrink(f1 + f2, limit)
    ensures Scale(k, f1) >= 0.0 && Scale(k, f2) >= 0.0 && Scale(k, f1) + Scale(k, f2) == limit
  {
    NonNegativeFactor(k, f1);
    NonNegativeFactor(k, f2);
    Distribute(k, f1, f2);
    hide Scale;
  }

  lemma NonNegativeFactor(k: real, x: real)
    requires k >= 0.0 && x >= 0.0
    ensures Scale(k, x) >= 0.0
  {
    NonNegativeProduct(k, x);
  }

  /** Saturating the command scales its legs, in the same sector, onto the limit. */
  lemma Saturated(sector: int, va: real, vb: real, vbus: real, peak: int, s: real,
                  f1: real, f2: real, limit: real, k: real)
    requires vbus > 0.0 && f1 >= 0.0 && f2 >= 0.0 && f1 + f2 > limit >= 0.0
    requires k == Shrink(f1 + f2, limit)
    requires Legs(sector, VoltageLevels(va, vb, vbus, peak, s), f1, f2)
    ensures Legs(sector, VoltageLevels(Scale(k, va), Scale(k, vb), vbus, peak, s), Scale(k, f1), Scale(k, f2))
    ensures Scale(k, f1) >= 0.0 && Scale(k, f2) >= 0.0 && Scale(k, f1) + Scale(k, f2) == limit
  {
    hide VoltageLevels, Legs, Shrink, Scale;
    ShrinkLegs(f1, f2, limit, k);
    VoltageLevelsScale(va, vb, k, vbus, peak, s);
    LegsScale(sector, VoltageLevels(va, vb, vbus, peak, s), f1, f2, k,
              VoltageLevels(Scale(k, va), Scale(k, vb), vbus, peak, s));
  }

  function Ratio(n: int, d: int): real
    requires d != 0
  {
    n as real / d as real
  }

  /** No conversion or sum of 16-bit counts wraps when the legs fit in four fifths of a period. */
  lemma NoWrap(f1: real, f2: real, peak: int)
    requires 0 < peak <= 0xffff && f1 >= 0.0 && f2 >= 0.0 && f1 + f2 <= 0.8 * peak as real
    ensures ToU16(Trunc(f1)) == f1.Floor && ToU16(Trunc(f2)) == f2.Floor
    ensures peak as real - f1 - f2 >= 0.0
    ensures var rest := (peak as real - f1 - f2).Floor;
      && ToU16(Trunc(peak as real - f1 - f2)) == rest
      && ToU16(rest / 2 + f1.Floor) == rest / 2 + f1.Floor
      && ToU16(rest / 2 + f1.Floor + f2.Floor) == rest / 2 + f1.Floor + f2.Floor
  {
    var rest := (peak as real - f1 - f2).Floor;
    assert 0 <= rest / 2 + f1.Floor <= rest / 2 + f1.Floor + f2.Floor <= 0xffff;
  }

  /** The most counts the active times may take: at least a fifth of the period is kept back. */
  function DutyCap(peak: int, maxDuty: real): (cap: real)
    ensures 0 < peak && 0.0 <= maxDuty ==> 0.0 <= cap <= 0.8 * peak as real
  {
    if maxDuty >= 0.8 then
      Scale(0.8, peak as real)
    else if 0 < peak && 0.0 <= maxDuty then
      MulOrder(0.0, maxDuty, peak as real);
      MulOrder(maxDuty, 0.8, peak as real);
      Scale(maxDuty, peak as real)
    else
      Scale(maxDuty, peak as real)
  }

  /** The configured share of the period, at most four fifths. */
  lemma DutyCapLaw(peak: int, maxDuty: real)
    ensures DutyCap(peak, maxDuty) == (if maxDuty < 0.8 then maxDuty * peak as real else 0.8 * peak as real)
  {
  }

  /** The vector `SVPWM_Calc` records: the command, or the command scaled onto the duty limit. */
  function Recorded(va: real, vb: real, vbus: real, peak: int, cap: real, s: real): (real, real)
    requires vbus > 0.0 && cap >= 0.0
  {
    var want := Span(VoltageLevels(va, vb, vbus, peak, s));
    if want > cap then (Scale(Shrink(want, cap), va), Scale(Shrink(want, cap), vb)) else (va, vb)
  }

  function RecordedLevels(va: real, vb: real, vbus: real, peak: int, cap: real, s: real): Levels
    requires vbus > 0.0 && cap >= 0.0
  {
    var (ua, ub) := Recorded(va, vb, vbus, peak, cap, s);
    VoltageLevels(ua, ub, vbus, peak, s)
  }

  /** The compare counts of a voltage: the sector-free counts of the recorded vector. */
  function Modulation(va: real, vb: real, vbus: real, peak: int, cap: real, s: real): Three<int>
    requires vbus > 0.0 && cap >= 0.0
  {
    OnCounts(RecordedLevels(va, vb, vbus, peak, cap, s), peak)
  }

  class Svpwm {
    var peakCnt: int
    var maxDutyCnt: real
    var uAlpha: real
    var uBeta: real
    var sector: int
    var ovFlag: bool
    var t0: int
    var t1: int
    var t2: int
    var uOn: int
    var vOn: int
    var wOn: int
    var ta: real
    var tb: real
    var tc: real

    /** What `Init` establishes for a 16-bit peak and a non-negative duty ratio. */
    ghost predicate Ready()
      reads this
    {
      0 < peakCnt <= 0xffff && 0.0 <= maxDutyCnt <= 0.8 * peakCnt as real
    }

    /** The outputs are the counts of the levels `l`. */
    ghost predicate Outputs(l: Levels)
      reads this
    {
      && peakCnt != 0
      && Orders(sector, l)
      && Span(l) <= maxDutyCnt
      && t0 == (peakCnt as real - Span(l)).Floor && t1 == (Mid(l) - Lo(l)).Floor && t2 == (Hi(l) - Mid(l)).Floor
      && Three(uOn, vOn, wOn) == OnCounts(l, peakCnt)
      && ta == Ratio(uOn, peakCnt)
      && tb == Ratio(vOn, peakCnt)
      && tc == Ratio(wOn, peakCnt)
    }

    constructor ()
    {
      peakCnt, maxDutyCnt, uAlpha, uBeta, sector, ovFlag := 0, 0.0, 0.0, 0.0, 0, false;
      t0, t1, t2, uOn, vOn, wOn := 0, 0, 0, 0, 0, 0;
      ta, tb, tc := 0.0, 0.0, 0.0;
    }

    method Init(peak: int, maxDuty: real)
      modifies this
      ensures peakCnt == peak
      ensures maxDutyCnt == DutyCap(peak, maxDuty)
      ensures maxDutyCnt == (if maxDuty < 0.8 then maxDuty * peak as real else 0.8 * peak as real)
      ensures uAlpha == 0.0 && uBeta == 0.0 && sector == 0 && t0 == t1 == t2 == 0
      ensures unchanged(`ovFlag, `uOn, `vOn, `wOn, `ta, `tb, `tc)
      ensures 0 < peak <= 0xffff && maxDuty >= 0.0 ==> Ready()
    {
      DutyCapLaw(peak, maxDuty);
      hide Scale;
      peakCnt := peak;
      if maxDuty >= 0.8 {
        maxDutyCnt := Scale(0.8, peak as real);
      } else {
        maxDutyCnt := Scale(maxDuty, peak as real);
      }
      uAlpha, uBeta := 0.0, 0.0;
      sector := 0;
      t0, t1, t2 := 0, 0, 0;
    }

    method Calc(va: real, vb: real, vbus: real, s: real)
      requires Ready() && vbus > 0.0
      modifies this
      ensures unchanged(`peakCnt, `maxDutyCnt)
      // The recorded vector is the command, or the command scaled onto the duty limit.
      ensures var want := Span(VoltageLevels(va, vb, vbus, peakCnt, s));
              && ovFlag == (want > maxDutyCnt)
              && uAlpha == (if ovFlag then Scale(Shrink(want, maxDutyCnt), va) else va)
              && uBeta == (if ovFlag then Scale(Shrink(want, maxDutyCnt), vb) else vb)
      // The counts are those of the recorded vector, whatever the sector and without a wrap.
      ensures Outputs(VoltageLevels(uAlpha, uBeta, vbus, peakCnt, s))
      ensures Three(uOn, vOn, wOn) == Modulation(va, vb, vbus, peakCnt, maxDutyCnt, s)
      ensures Follows(Three(uOn, vOn, wOn), VoltageLevels(uAlpha, uBeta, vbus, peakCnt, s))
      ensures 0 <= uOn && 0 <= vOn && 0 <= wOn
      ensures 10 * uOn <= 9 * peakCnt && 10 * vOn <= 9 * peakCnt && 10 * wOn <= 9 * peakCnt
    {
      hide Follows, OnCounts, VoltageLevels, Span, Shrink, Scale, Lo, Mid, Hi, Orders;
      CalcCounts(va, vb, vbus, s);
      OnCountsLaw(VoltageLevels(uAlpha, uBeta, vbus, peakCnt, s), peakCnt);
    }

    method CalcCounts(va: real, vb: real, vbus: real, s: real)
      requires Ready() && vbus > 0.0
      modifies this
      ensures unchanged(`peakCnt, `maxDutyCnt)
      ensures var want := Span(VoltageLevels(va, vb, vbus, peakCnt, s));
              && ovFlag == (want > maxDutyCnt)
              && uAlpha == (if ovFlag then Scale(Shrink(want, maxDutyCnt), va) else va)
              && uBeta == (if ovFlag then Scale(Shrink(want, maxDutyCnt), vb) else vb)
      ensures Outputs(VoltageLevels(uAlpha, uBeta, vbus, peakCnt, s))
    {
      hide Gain, Lo, Mid, Hi, Span, OnCounts, Shrink, Legs, Orders, Scale;
      var vbc := vb * s;
      var vab := va * 1.5 - vbc * 0.5;
      ghost var want := VoltageLevels(va, vb, vbus, peakCnt, s);
      var v1, v2 := DecodeSector(vab, vbc);
      var f1 := Gain(v1, vbus, peakCnt);
      var f2 := Gain(v2, vbus, peakCnt);
      LegsGain(sector, vab, vbc, v1, v2, vbus, peakCnt);
      OnCountsOfLegs(sector, want, peakCnt, f1, f2);

      if f1 + f2 > maxDutyCnt {
        var k := Shrink(f1 + f2, maxDutyCnt);
        Saturated(sector, va, vb, vbus, peakCnt, s, f1, f2, maxDutyCnt, k);
        uAlpha := Scale(k, va);
        uBeta := Scale(k, vb);
        ovFlag := true;
        PlaceCounts(Scale(k, f1), Scale(k, f2), VoltageLevels(uAlpha, uBeta, vbus, peakCnt, s));
      } else {
        uAlpha := va;
        uBeta := vb;
        ovFlag := false;
        PlaceCounts(f1, f2, want);
      }
    }

    /** Sector and active voltages from the signs of the line voltages. */
    method DecodeSector(vab: real, vbc: real) returns (v1: real, v2: real)
      modifies `sector
      ensures Legs(sector, LineLevels(vab, vbc), v1, v2)
      ensures v1 >= 0.0 && v2 >= 0.0
    {
      var vca := -(vab + vbc);
      if vab >= 0.0 {
        if vbc >= 0.0 {
          sector, v1, v2 := 1, vab, vbc;
        } else if vca >= 0.0 {
          sector, v1, v2 := 5, vca, vab;
        } else {
          sector, v1, v2 := 6, -vca, -vbc;
        }
      } else {
        if vbc <= 0.0 {
          sector, v1, v2 := 4, -vbc, -vab;
        } else if vca <= 0.0 {
          sector, v1, v2 := 2, -vab, -vca;
        } else {
          sector, v1, v2 := 3, vbc, vca;
        }
      }
    }

    /** The 16-bit times and compare counts of a sector, from its two active times. */
    method PlaceCounts(f1: real, f2: real, ghost l: Levels)
      requires Ready() && f1 >= 0.0 && f2 >= 0.0 && f1 + f2 <= maxDutyCnt
      requires Legs(sector, l, f1, f2)
      modifies `t0, `t1, `t2, `uOn, `vOn, `wOn, `ta, `tb, `tc
      ensures Outputs(l)
    {
      hide OnCounts, Lo, Mid, Hi, Span, Orders, Arrange, Trunc, ToU16, Ratio, Legs;
      LegsOrder(sector, l, f1, f2);
      OnCountsOfLegs(sector, l, peakCnt, f1, f2);
      NoWrap(f1, f2, peakCnt);
      t1 := ToU16(Trunc(f1));
      t2 := ToU16(Trunc(f2));
      var temp := peakCnt as real - f1 - f2;
      if temp < 0.0 { temp := 0.0; }
      t0 := ToU16(Trunc(temp));
      Assign(t0 / 2, ToU16(t0 / 2 + t1), ToU16(ToU16(t0 / 2 + t1) + t2));
    }

    /** Hand the three switch-on instants to the phases in the order the sector names. */
    method Assign(near: int, middle: int, far: int)
      requires 1 <= sector <= 6 && peakCnt != 0
      modifies `uOn, `vOn, `wOn, `ta, `tb, `tc
      ensures Three(uOn, vOn, wOn) == Arrange(sector, near, middle, far)
      ensures ta == Ratio(uOn, peakCnt) && tb == Ratio(vOn, peakCnt) && tc == Ratio(wOn, peakCnt)
    {
      if sector == 1 {
        uOn, vOn, wOn := near, middle, far;
      } else if sector == 2 {
        vOn, uOn, wOn := near, middle, far;
      } else if sector == 3 {
        vOn, wOn, uOn := near, middle, far;
      } else if sector == 4 {
        wOn, vOn, uOn := near, middle, far;
      } else if sector == 5 {
        wOn, uOn, vOn := near, middle, far;
      } else if sector == 6 {
        uOn, wOn, vOn := near, middle, far;
      } else {
        assert false; // the 0xffff fallback
      }
      ta := Ratio(uOn, peakCnt);
      tb := Ratio(vOn, peakCnt);
      tc := Ratio(wOn, peakCnt);
    }
  }

  /** The pairwise differences of the counts are those of the levels to within two counts. */
  predicate Follows(c: Three<int>, l: Levels) {
    && -2.0 < (c.v - c.u) as real - (l.v - l.u) < 2.0
    && -2.0 < (c.w - c.v) as real - (l.w - l.v) < 2.0
    && -2.0 < (c.u - c.w) as real - (l.u - l.w) < 2.0
  }

  /** The counts of a saturated vector never exceed nine tenths of the period, follow the line
      voltages within two counts, and are centred within four. */
  lemma OnCountsLaw(l: Levels, peak: int)
    requires 0 < peak && Span(l) <= 0.8 * peak as real
    ensures var c := OnCounts(l, peak);
      && 0 <= c.u && 10 * c.u <= 9 * peak
      && 0 <= c.v && 10 * c.v <= 9 * peak
      && 0 <= c.w && 10 * c.w <= 9 * peak
      && Follows(c, l)
    ensures peak - 4 < OnCount(l, peak, Lo(l)) + OnCount(l, peak, Hi(l)) <= peak
  {
    hide OnCount, Lo, Hi, Span;
    PairLaw(l, peak, l.u, l.v);
    PairLaw(l, peak, l.v, l.w);
    PairLaw(l, peak, l.w, l.u);
  }

  lemma PairLaw(l: Levels, peak: int, x: real, y: real)
    requires IsLevel(l, x) && IsLevel(l, y) && Span(l) <= peak as real
    ensures -2.0 < (OnCount(l, peak, y) - OnCount(l, peak, x)) as real - (y - x) < 2.0
    ensures 0 <= OnCount(l, peak, y)
    ensures OnCount(l, peak, y) as real <= (peak as real + Span(l)) / 2.0
    ensures peak - 4 < OnCount(l, peak, Lo(l)) + OnCount(l, peak, Hi(l)) <= peak
  {
    if x <= y { OnCountLaw(l, peak, x, y); } else { OnCountLaw(l, peak, y, x); }
  }

  /** The recorded vector never needs more than the duty limit: it needs what the command needs, or
      exactly the limit. */
  lemma RecordedSpan(va: real, vb: real, vbus: real, peak: int, cap: real, s: real)
    requires vbus > 0.0 && cap >= 0.0
    ensures Span(RecordedLevels(va, vb, vbus, peak, cap, s)) <= cap
    ensures Span(RecordedLevels(va, vb, vbus, peak, cap, s)) == Min(Span(VoltageLevels(va, vb, vbus, peak, s)), cap)
  {
    hide VoltageLevels, Span, Shrink, Scale;
    var l := VoltageLevels(va, vb, vbus, peak, s);
    LevelsFromZero(va, vb, vbus, peak, s);
    if Span(l) > cap {
      var k := Shrink(Span(l), cap);
      VoltageLevelsScale(va, vb, k, vbus, peak, s);
      SpanScale(l, k, VoltageLevels(Scale(k, va), Scale(k, vb), vbus, peak, s));
    }
  }

  /** And it points the way of the command: the command itself while that needs no more than the limit,
      otherwise a share of it. */
  lemma RecordedParallel(va: real, vb: real, vbus: real, peak: int, cap: real, s: real)
    requires vbus > 0.0 && cap >= 0.0
    ensures Span(VoltageLevels(va, vb, vbus, peak, s)) <= cap ==> Recorded(va, vb, vbus, peak, cap, s) == (va, vb)
    ensures exists k :: 0.0 <= k <= 1.0 && Recorded(va, vb, vbus, peak, cap, s) == (Scale(k, va), Scale(k, vb))
  {
    hide VoltageLevels, Span, Shrink;
    var want := Span(VoltageLevels(va, vb, vbus, peak, s));
    var k := if want > cap then Shrink(want, cap) else 1.0;
    assert Recorded(va, vb, vbus, peak, cap, s) == (Scale(k, va), Scale(k, vb));
  }

  lemma LevelsFromZero(va: real, vb: real, vbus: real, peak: int, s: real)
    requires vbus > 0.0
    ensures VoltageLevels(va, vb, vbus, peak, s).u == 0.0
  {
  }

  lemma SpanScale(l: Levels, k: real, l': Levels)
    requires k >= 0.0 && l.u == 0.0
    requires l'.u == 0.0 && l'.v == Scale(k, l.v) && l'.w == Scale(k, l.w)
    ensures Span(l') == Scale(k, Span(l))
  {
    hide Scale, Lo, Hi;
    ScaleLo(l, k);
    ScaleOfZero(k);
    assert l' == Three(Scale(k, l.u), Scale(k, l.v), Scale(k, l.w));
    Distribute(k, Lo(l), Hi(l) - Lo(l));
  }

  lemma ScaleOfZero(k: real)
    ensures Scale(k, 0.0) == 0.0
  {
  }

  /** Every modulation follows the recorded vector within two counts and keeps every count within
      nine tenths of the period. */
  lemma ModulationLaw(va: real, vb: real, vbus: real, peak: int, cap: real, s: real)
    requires vbus > 0.0 && 0 < peak && 0.0 <= cap <= 0.8 * peak as real
    ensures var c := Modulation(va, vb, vbus, peak, cap, s);
      && Follows(c, RecordedLevels(va, vb, vbus, peak, cap, s))
      && 0 <= c.u && 10 * c.u <= 9 * peak
      && 0 <= c.v && 10 * c.v <= 9 * peak
      && 0 <= c.w && 10 * c.w <= 9 * peak
  {
    hide RecordedLevels, OnCounts, Follows, Span;
    RecordedSpan(va, vb, vbus, peak, cap, s);
    OnCountsLaw(RecordedLevels(va, vb, vbus, peak, cap, s), peak);
  }

  // ----- `svm` and `foc_svm` ------------------------------------------------------------

  /** The line voltages of a modulation vector, as fractions of the period. */
  function ModLevels(alpha: real, beta: real, s: real): Levels
    requires s > 0.0
  {
    LineLevels(alpha - beta / s, 2.0 * (beta / s))
  }

  /** Sextant of a modulation vector; `w` is `beta` over the square root of 3. */
  function Sextant(alpha: real, beta: real, w: real): int {
    if beta >= 0.0 then
      if alpha >= 0.0 then (if w > alpha then 2 else 1) else (if -w > alpha then 3 else 2)
    else
      if alpha >= 0.0 then (if -w > alpha then 5 else 6) else (if w > alpha then 4 else 5)
  }

  /** The two on-times of a sextant, in the order its phases switch on. */
  function OnTimes(sextant: int, alpha: real, w: real): (real, real) {
    match sextant
    case 1 => (alpha - w, 2.0 * w)
    case 2 => (-alpha + w, alpha + w)
    case 3 => (2.0 * w, -alpha - w)
    case 4 => (-2.0 * w, -alpha + w)
    case 5 => (-alpha - w, alpha - w)
    case _ => (alpha + w, -2.0 * w)
  }

  lemma OnTimesAreLegs(alpha: real, beta: real, w: real)
    requires beta >= 0.0 <==> w >= 0.0
    ensures var sx := Sextant(alpha, beta, w);
            var (f1, f2) := OnTimes(sx, alpha, w);
            1 <= sx <= 6 && Legs(sx, LineLevels(alpha - w, 2.0 * w), f1, f2) && f1 >= 0.0 && f2 >= 0.0
  {
  }

  lemma SameSign(beta: real, s: real)
    requires s > 0.0
    ensures beta >= 0.0 <==> beta / s >= 0.0
  {
    assert (beta / s) * s == beta;
    if beta / s >= 0.0 { MulOrder(0.0, beta / s, s); } else { MulOrder(beta / s, 0.0, s); }
  }

  /** Legs laid out around the middle of the period realise their levels. */
  lemma LegsRealise(sector: int, l: Levels, f1: real, f2: real, peak: real)
    requires Legs(sector, l, f1, f2) && f1 >= 0.0 && f2 >= 0.0
    ensures var near := (peak - f1 - f2) * 0.5;
            var t := Arrange(sector, near, near + f1, near + f1 + f2);
            Realises(t, l, peak) && Lo(t) == near && Hi(t) == near + f1 + f2
    ensures Span(l) == f1 + f2
  {
  }

  /** The PWM timings of a sextant. */
  method SextantTimings(sextant: int, alpha: real, w: real) returns (tA: real, tB: real, tC: real)
    requires 1 <= sextant <= 6
    ensures var (f1, f2) := OnTimes(sextant, alpha, w);
            var near := (1.0 - f1 - f2) * 0.5;
            Three(tA, tB, tC) == Arrange(sextant, near, near + f1, near + f1 + f2)
  {
    match sextant {
      case 1 =>
        var t1, t2 := alpha - w, 2.0 * w;
        tA := (1.0 - t1 - t2) * 0.5;
        tB := tA + t1;
        tC := tB + t2;
      case 2 =>
        var t2, t3 := alpha + w, -alpha + w;
        tB := (1.0 - t2 - t3) * 0.5;
        tA := tB + t3;
        tC := tA + t2;
      case 3 =>
        var t3, t4 := 2.0 * w, -alpha - w;
        tB := (1.0 - t3 - t4) * 0.5;
        tC := tB + t3;
        tA := tC + t4;
      case 4 =>
        var t4, t5 := -alpha + w, -2.0 * w;
        tC := (1.0 - t4 - t5) * 0.5;
        tB := tC + t5;
        tA := tB + t4;
      case 5 =>
        var t5, t6 := -alpha - w, alpha - w;
        tC := (1.0 - t5 - t6) * 0.5;
        tA := tC + t5;
        tB := tA + t6;
      case _ =>
        var t6, t1 := -2.0 * w, alpha + w;
        tA := (1.0 - t6 - t1) * 0.5;
        tC := tA + t1;
        tB := tC + t6;
    }
  }

  /** `svm`: real-valued timings. The return code is 0 exactly when the vector needs no more
      than the whole period, and then every timing lies in the period. */
  method Svm(alpha: real, beta: real, s: real) returns (tA: real, tB: real, tC: real, code: int)
    requires s > 0.0
    ensures Realises(Three(tA, tB, tC), ModLevels(alpha, beta, s), 1.0)
    ensures code == if Span(ModLevels(alpha, beta, s)) <= 1.0 then 0 else -1
    ensures code == 0 <==> 0.0 <= tA <= 1.0 && 0.0 <= tB <= 1.0 && 0.0 <= tC <= 1.0
  {
    hide Realises, Legs, Sextant, OnTimes, Arrange, Span;
    var w := beta / s;
    SameSign(beta, s);
    OnTimesAreLegs(alpha, beta, w);
    var sextant := Sextant(alpha, beta, w);
    tA, tB, tC := SextantTimings(sextant, alpha, w);
    ghost var (f1, f2) := OnTimes(sextant, alpha, w);
    LegsRealise(sextant, ModLevels(alpha, beta, s), f1, f2, 1.0);
    ghost var t := Three(tA, tB, tC);
    assert Lo(t) + Hi(t) == 1.0 && Hi(t) - Lo(t) == f1 + f2;
    code := if 0.0 <= tA <= 1.0 && 0.0 <= tB <= 1.0 && 0.0 <= tC <= 1.0 then 0 else -1;
  }

  /** The levels of a modulation vector in counts. */
  function ModCounts(alpha: real, beta: real, top: int, s: real): Levels
    requires s > 0.0
  {
    LineLevels(Scale(top as real, alpha - beta / s), Scale(top as real, 2.0 * (beta / s)))
  }

  /** `t_max` of `foc_svm`. */
  function DutyMax(top: int, maxMod: real): int {
    Trunc(top as real * (1.0 - (1.0 - maxMod) * 0.5))
  }

  /** Halfway between the whole period and the modulation limit's share of it, cut to a count. */
  lemma DutyMaxLaw(top: int, maxMod: real)
    requires 0 <= top && 0.0 <= maxMod
    ensures var d := DutyMax(top, maxMod) as real; d <= (top as real + maxMod * top as real) / 2.0 < d + 1.0
  {
    assert top as real * (1.0 - (1.0 - maxMod) * 0.5) == (top as real + maxMod * top as real) / 2.0;
    MulOrder(0.0, maxMod, top as real);
  }

  lemma OnTimesScale(sx: int, alpha: real, w: real, k: real)
    requires k >= 0.0
    requires var (f1, f2) := OnTimes(sx, alpha, w);
             Legs(sx, LineLevels(alpha - w, 2.0 * w), f1, f2) && f1 >= 0.0 && f2 >= 0.0
    ensures var (f1, f2) := OnTimes(sx, alpha, w);
      && Legs(sx, LineLevels(Scale(k, alpha - w), Scale(k, 2.0 * w)), Scale(k, f1), Scale(k, f2))
      && Scale(k, f1) >= 0.0 && Scale(k, f2) >= 0.0
  {
    var (f1, f2) := OnTimes(sx, alpha, w);
    assert Scale(k, f1) >= 0.0 && Scale(k, f2) >= 0.0;
    hide OnTimes, Scale;
    Distribute(k, alpha - w, 2.0 * w);
    Distribute(k, 0.0, 0.0);
    LegsScale(sx, LineLevels(alpha - w, 2.0 * w), f1, f2, k, LineLevels(Scale(k, alpha - w), Scale(k, 2.0 * w)));
  }

  /** The PWM timings of a sector before clamping, with the on-times truncated to counts. */
  method SectorDuties(sector: int, alpha: real, w: real, top: int) returns (tA: int, tB: int, tC: int)
    requires 1 <= sector <= 6
    ensures var (f1, f2) := OnTimes(sector, alpha, w);
            var n1, n2 := Trunc(Scale(top as real, f1)), Trunc(Scale(top as real, f2));
            var near := ToU32(top + n1 + n2) / 2;
            Three(tA, tB, tC) == Arrange(sector, near, near - n1, near - n1 - n2)
  {
    hide Scale, Trunc, ToU32;
    var p := top as real;
    match sector {
      case 1 =>
        var t1, t2 := Trunc(Scale(p, alpha - w)), Trunc(Scale(p, 2.0 * w));
        tA := ToU32(top + t1 + t2) / 2;
        tB := tA - t1;
        tC := tB - t2;
      case 2 =>
        var t2, t3 := Trunc(Scale(p, alpha + w)), Trunc(Scale(p, -alpha + w));
        tB := ToU32(top + t2 + t3) / 2;
        tA := tB - t3;
        tC := tA - t2;
      case 3 =>
        var t3, t4 := Trunc(Scale(p, 2.0 * w)), Trunc(Scale(p, -alpha - w));
        tB := ToU32(top + t3 + t4) / 2;
        tC := tB - t3;
        tA := tC - t4;
      case 4 =>
        var t4, t5 := Trunc(Scale(p, -alpha + w)), Trunc(Scale(p, -2.0 * w));
        tC := ToU32(top + t4 + t5) / 2;
        tB := tC - t5;
        tA := tB - t4;
      case 5 =>
        var t5, t6 := Trunc(Scale(p, -alpha - w)), Trunc(Scale(p, alpha - w));
        tC := ToU32(top + t5 + t6) / 2;
        tA := tC - t5;
        tB := tA - t6;
      case _ =>
        var t6, t1 := Trunc(Scale(p, -2.0 * w)), Trunc(Scale(p, alpha + w));
        tA := ToU32(top + t6 + t1) / 2;
        tC := tA - t1;
        tB := tC - t6;
    }
  }

  /** What `SectorDuties` computes is the sector-free count: no sum leaves 32 bits. */
  lemma DutiesOfSextant(alpha: real, beta: real, top: int, s: real)
    requires s > 0.0 && 0 <= top
    requires top as real + Span(ModCounts(alpha, beta, top, s)) < 0x8000_0000 as real
    ensures var w := beta / s;
            var sector := Sextant(alpha, beta, w);
            var (f1, f2) := OnTimes(sector, alpha, w);
            var n1, n2 := Trunc(Scale(top as real, f1)), Trunc(Scale(top as real, f2));
            var near := ToU32(top + n1 + n2) / 2;
            var l := ModCounts(alpha, beta, top, s);
      && 1 <= sector <= 6 && Orders(sector, l)
      && DutyCounts(l, top) == Arrange(sector, near, near - n1, near - n1 - n2)
  {
    hide Scale, Sextant, OnTimes, Legs, DutyCounts, Lo, Mid, Hi, Span, Orders, Arrange;
    var w := beta / s;
    SameSign(beta, s);
    OnTimesAreLegs(alpha, beta, w);
    var sector := Sextant(alpha, beta, w);
    var (f1, f2) := OnTimes(sector, alpha, w);
    OnTimesScale(sector, alpha, w, top as real);
    var c1, c2 := Scale(top as real, f1), Scale(top as real, f2);
    DutyCountsOfLegs(sector, ModCounts(alpha, beta, top, s), top, c1, c2);
    NoWrap32(c1, c2, top);
  }

  lemma NoWrap32(f1: real, f2: real, top: int)
    requires 0 <= top && f1 >= 0.0 && f2 >= 0.0 && top as real + f1 + f2 < 0x8000_0000 as real
    ensures Trunc(f1) == f1.Floor && Trunc(f2) == f2.Floor
    ensures ToU32(top + Trunc(f1) + Trunc(f2)) == top + f1.Floor + f2.Floor
  {
  }

  /** `foc_svm`: integer duties, clamped. The caller keeps the on-times inside C's `int`. */
  method FocSvm(alpha: real, beta: real, maxMod: real, top: int, s: real)
    returns (tA: int, tB: int, tC: int, sector: int)
    requires s > 0.0 && 0 <= top
    requires top as real + Span(ModCounts(alpha, beta, top, s)) < 0x8000_0000 as real
    ensures Orders(sector, ModCounts(alpha, beta, top, s))
    ensures var d := DutyCounts(ModCounts(alpha, beta, top, s), top);
      && tA == TruncateInt(d.u, 0, DutyMax(top, maxMod))
      && tB == TruncateInt(d.v, 0, DutyMax(top, maxMod))
      && tC == TruncateInt(d.w, 0, DutyMax(top, maxMod))
  {
    hide *;
    var w := beta / s;
    DutiesOfSextant(alpha, beta, top, s);
    sector := Sextant(alpha, beta, w);
    tA, tB, tC := SectorDuties(sector, alpha, w, top);
    var tMax := DutyMax(top, maxMod);
    tA := TruncateInt(tA, 0, tMax);
    tB := TruncateInt(tB, 0, tMax);
    tC := TruncateInt(tC, 0, tMax);
  }

  // ----- The three forms agree ----------------------------------------------------------

  /** Normalised as the VESC code does it, a stator voltage has the same levels in all forms. */
  lemma SameLevels(va: real, vb: real, vbus: real, peak: int, s: real)
    requires s > 0.0 && s * s == 3.0 && vbus > 0.0
    ensures VoltageLevels(va, vb, vbus, peak, s) == ModCounts(1.5 * va / vbus, 1.5 * vb / vbus, peak, s)
  {
    var alpha, beta := 1.5 * va / vbus, 1.5 * vb / vbus;
    HalfLine(vb, vbus, s);
    Normalised(va, vb * s * 0.5, vbus);
    GainIsScale(va * 1.5 - vb * s * 0.5, alpha - beta / s, vbus, peak);
    GainIsScale(vb * s, 2.0 * (beta / s), vbus, peak);
    hide Gain, Scale;
  }

  lemma GainIsScale(x: real, y: real, vbus: real, peak: int)
    requires vbus > 0.0 && x * (1.0 / vbus) == y
    ensures Gain(x, vbus, peak) == Scale(peak as real, y)
  {
  }

  lemma Normalised(va: real, half: real, vbus: real)
    requires vbus > 0.0
    ensures (va * 1.5 - half) * (1.0 / vbus) == 1.5 * va / vbus - half * (1.0 / vbus)
    ensures (2.0 * half) * (1.0 / vbus) == 2.0 * (half * (1.0 / vbus))
  {
    var i := 1.0 / vbus;
    assert (va * 1.5) * i == 1.5 * va / vbus;
    assert (va * 1.5 - half) * i == (va * 1.5) * i - half * i;
  }

  lemma HalfLine(vb: real, vbus: real, s: real)
    requires s > 0.0 && s * s == 3.0 && vbus > 0.0
    ensures (vb * s * 0.5) * (1.0 / vbus) == (1.5 * vb / vbus) / s
  {
    var i := 1.0 / vbus;
    var w := (1.5 * vb / vbus) / s;
    assert 1.5 * vb / vbus == 1.5 * vb * i;
    assert w * s == 1.5 * vb * i;
    assert (vb * s * 0.5) * i * s == (s * s) * (vb * 0.5) * i;
    assert (vb * s * 0.5) * i * s == w * s;
    SameFactor((vb * s * 0.5) * i, w, s);
  }

  lemma SameFactor(x: real, y: real, s: real)
    requires s > 0.0 && x * s == y * s
    ensures x == y
  {
    assert (x - y) * s == 0.0;
  }

  /** For one stator voltage: `SVPWM_Calc` before saturation counts switch-on instants of
      `svm`'s timings, unclamped `foc_svm` counts the on-times they leave, and the two integer
      forms are complements. Sector boundaries, where the tests differ, make no exception. */
  lemma FormsAgree(va: real, vb: real, vbus: real, peak: int, s: real, t: Levels)
    requires s > 0.0 && s * s == 3.0 && vbus > 0.0 && 0 <= peak
    requires Realises(t, ModLevels(1.5 * va / vbus, 1.5 * vb / vbus, s), 1.0)
    ensures var c := OnCounts(VoltageLevels(va, vb, vbus, peak, s), peak);
            var d := DutyCounts(ModCounts(1.5 * va / vbus, 1.5 * vb / vbus, peak, s), peak);
            var p := peak as real;
      && -3.0 < c.u as real - Scale(p, t.u) <= 0.0 && -2.0 < d.u as real - (p - Scale(p, t.u)) < 2.0
      && -3.0 < c.v as real - Scale(p, t.v) <= 0.0 && -2.0 < d.v as real - (p - Scale(p, t.v)) < 2.0
      && -3.0 < c.w as real - Scale(p, t.w) <= 0.0 && -2.0 < d.w as real - (p - Scale(p, t.w)) < 2.0
      && peak - 2 <= c.u + d.u <= peak && peak - 2 <= c.v + d.v <= peak && peak - 2 <= c.w + d.w <= peak
  {
    hide Realises, Lo, Mid, Hi, Span, Scale, OnCount, DutyCount, VoltageLevels, ModCounts;
    var alpha, beta, p := 1.5 * va / vbus, 1.5 * vb / vbus, peak as real;
    var l := ModCounts(alpha, beta, peak, s);
    SameLevels(va, vb, vbus, peak, s);
    var t' := Three(Scale(p, t.u), Scale(p, t.v), Scale(p, t.w));
    RealisesScale(t, alpha, beta, s, peak);
    CountsNearCentred(t', l, peak);
    Complement(l, peak, l.u);
    Complement(l, peak, l.v);
    Complement(l, peak, l.w);
  }

  lemma RealisesScale(t: Levels, alpha: real, beta: real, s: real, peak: int)
    requires s > 0.0 && peak >= 0 && Realises(t, ModLevels(alpha, beta, s), 1.0)
    ensures var p := peak as real;
            Realises(Three(Scale(p, t.u), Scale(p, t.v), Scale(p, t.w)), ModCounts(alpha, beta, peak, s), p)
  {
    hide Scale, Lo, Hi;
    var p, w := peak as real, beta / s;
    var t' := Three(Scale(p, t.u), Scale(p, t.v), Scale(p, t.w));
    Distribute(p, t.u, alpha - w);
    Distribute(p, t.v, 2.0 * w);
    assert t.v == t.u + (alpha - w) && t.w == t.v + 2.0 * w;
    ScaleLo(t, p);
    Distribute(p, Lo(t), Hi(t));
    ScaleOne(p);
  }

  lemma ScaleOne(k: real)
    ensures Scale(k, 1.0) == k
  {
  }

  lemma ScaleLo(t: Levels, k: real)
    requires k >= 0.0
    ensures var t' := Three(Scale(k, t.u), Scale(k, t.v), Scale(k, t.w));
            Lo(t') == Scale(k, Lo(t)) && Hi(t') == Scale(k, Hi(t))
  {
    hide Scale;
    if t.u <= t.v { ScaleOrder(k, t.u, t.v); } else { ScaleOrder(k, t.v, t.u); }
    if t.v <= t.w { ScaleOrder(k, t.v, t.w); } else { ScaleOrder(k, t.w, t.v); }
    if t.u <= t.w { ScaleOrder(k, t.u, t.w); } else { ScaleOrder(k, t.w, t.u); }
  }

  lemma Complement(l: Levels, peak: int, x: real)
    requires IsLevel(l, x)
    ensures peak - 2 <= OnCount(l, peak, x) + DutyCount(l, peak, x) <= peak
  {
    RiseLaw(l, Hi(l));
    hide Rise, Lo, Hi, Mid;
  }
}
