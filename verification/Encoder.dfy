/** The magnetic encoder of encoder.c: multi-turn unwrapping and the count tracking loop. */
module Encoder {
  import opened Numeric
  import Trig

  const Cpr := 16384
  const Half := 8192
  const CprF := 16384.0

  /** A reading of the sensor; a failed exchange leaves the previous raw count in place. */
  datatype Sample = Angle(counts: int) | Failed

  // ----- Wrapping -----------------------------------------------------------------------

  /** Repeated subtraction and addition of one turn, in closed form. */
  function WrapInt(x: int, lo: int, hi: int): int {
    if x > hi then x - (x - hi + Cpr - 1) / Cpr * Cpr
    else if x < lo then x + (lo - x + Cpr - 1) / Cpr * Cpr
    else x
  }

  function Ceiling(x: real): int {
    -((-x).Floor)
  }

  function Wrap(x: real, lo: real, hi: real): real {
    if x > hi then x - Ceiling((x - hi) / CprF) as real * CprF
    else if x < lo then x + Ceiling((lo - x) / CprF) as real * CprF
    else x
  }

  /** The result lies in the interval and differs from the argument by whole turns. */
  lemma WrapIntLaw(x: int, lo: int, hi: int)
    requires lo + Cpr == hi
    ensures lo <= WrapInt(x, lo, hi) <= hi
    ensures WrapInt(x, lo, hi) % Cpr == x % Cpr
    ensures WrapInt(x, lo, hi) == x <==> lo <= x <= hi
  {
  }

  lemma WrapIntStep(x: int, lo: int, hi: int)
    requires lo + Cpr == hi
    ensures x > hi ==> WrapInt(x - Cpr, lo, hi) == WrapInt(x, lo, hi)
    ensures x < lo ==> WrapInt(x + Cpr, lo, hi) == WrapInt(x, lo, hi)
  {
  }

  method WrapCounts(x: int, lo: int, hi: int) returns (y: int)
    requires lo + Cpr == hi
    ensures y == WrapInt(x, lo, hi) && lo <= y <= hi
  {
    hide WrapInt;
    y := x;
    while y > hi
      invariant y >= lo || y == x
      invariant WrapInt(y, lo, hi) == WrapInt(x, lo, hi)
    {
      WrapIntStep(y, lo, hi);
      y := y - Cpr;
    }
    while y < lo
      invariant y <= hi
      invariant WrapInt(y, lo, hi) == WrapInt(x, lo, hi)
    {
      WrapIntStep(y, lo, hi);
      y := y + Cpr;
    }
    WrapIntLaw(y, lo, hi);
  }

  lemma CeilingStep(x: real)
    ensures Ceiling((x - CprF) / CprF) == Ceiling(x / CprF) - 1
    ensures x > 0.0 <==> Ceiling(x / CprF) > 0
    ensures x > 0.0 ==> x - Ceiling(x / CprF) as real * CprF > -CprF
    ensures x - Ceiling(x / CprF) as real * CprF <= 0.0
  {
    var q := x / CprF;
    assert q * CprF == x;
    assert (x - CprF) / CprF == q - 1.0;
    assert (-(q - 1.0)).Floor == (-q).Floor + 1;
  }

  lemma WrapLaw(x: real, lo: real, hi: real)
    requires lo + CprF == hi
    ensures lo <= Wrap(x, lo, hi) <= hi
    ensures lo <= x <= hi <==> Wrap(x, lo, hi) == x
  {
    hide Ceiling;
    CeilingStep(x - hi);
    CeilingStep(lo - x);
  }

  lemma WrapStep(x: real, lo: real, hi: real)
    requires lo + CprF == hi
    ensures x > hi ==> Wrap(x - CprF, lo, hi) == Wrap(x, lo, hi)
    ensures x < lo ==> Wrap(x + CprF, lo, hi) == Wrap(x, lo, hi)
  {
    hide Ceiling;
    CeilingStep(x - hi);
    CeilingStep(lo - x);
    if x > hi {
      assert (x - CprF) - hi == (x - hi) - CprF;
      CeilingStep(x - CprF - hi);
    } else if x < lo {
      assert lo - (x + CprF) == (lo - x) - CprF;
      CeilingStep(lo - x - CprF);
    }
  }

  method WrapReal(x: real, lo: real, hi: real) returns (y: real)
    requires lo + CprF == hi
    ensures y == Wrap(x, lo, hi) && lo <= y <= hi
  {
    hide Wrap, Ceiling;
    y := x;
    while y > hi
      invariant y >= lo || y == x
      invariant Wrap(y, lo, hi) == Wrap(x, lo, hi)
      decreases Ceiling((y - hi) / CprF)
    {
      WrapStep(y, lo, hi);
      CeilingStep(y - hi);
      assert y - CprF - hi == (y - hi) - CprF;
      y := y - CprF;
    }
    while y < lo
      invariant y <= hi
      invariant Wrap(y, lo, hi) == Wrap(x, lo, hi)
      decreases Ceiling((lo - y) / CprF)
    {
      WrapStep(y, lo, hi);
      CeilingStep(lo - y);
      assert lo - (y + CprF) == (lo - y) - CprF;
      y := y + CprF;
    }
    WrapLaw(y, lo, hi);
  }

  // ----- One call -----------------------------------------------------------------------

  datatype Gains = Gains(period: real, pllKp: real, pllKi: real, snap: real, polePairs: int)

  /** The fields of `Encoder_t` other than the gains; the alignment offset is set from outside. */
  datatype Enc = Enc(raw: int, cnt: int, prev: int, shadow: int,
                     posCpr: real, velEst: real, interp: real, pos: real, phase: real,
                     vel: real, phaseVel: real, eAngle: real, offset: real)

  const Zero := Enc(0, 0, 0, 0, 0.0, 0.0, 0.0, 0.0, 0.0, 0.0, 0.0, 0.0, 0.0)

  /** `Encoder_Init` keeps the electrical angle and the alignment offset. */
  function Reset(e: Enc): Enc {
    Zero.(eAngle := e.eAngle, offset := e.offset)
  }

  function Raw(e: Enc, s: Sample, ccw: bool): int {
    match s
    case Angle(a) => if ccw then a else Cpr - a
    case Failed => e.raw
  }

  /** The disabled offset table: whatever the raw count, nothing is left after the shift. */
  function OffInterp(raw: int): int {
    (raw - raw / 2048 * 2048) / 2048
  }

  lemma OffInterpIsZero(raw: int)
    ensures OffInterp(raw) == 0
  {
  }

  /** The difference of two counts, taken the short way round. */
  function Delta(cnt: int, prev: int): int {
    WrapInt(cnt - prev, -Half, Half)
  }

  function Unwrap(e: Enc, s: Sample, ccw: bool): Enc {
    var raw := Raw(e, s, ccw);
    var cnt := WrapInt(raw - OffInterp(raw), 0, Cpr);
    e.(raw := raw, cnt := cnt, prev := cnt, shadow := e.shadow + Delta(cnt, e.prev))
  }

  function PllError(e: Enc, g: Gains): real {
    Wrap((e.cnt - Trunc(e.posCpr + Scale(g.period, e.velEst))) as real, -Half as real, Half as real)
  }

  function PllPos(e: Enc, g: Gains, err: real): real {
    Wrap(e.posCpr + Scale(g.period, e.velEst) + Scale(Scale(g.period, g.pllKp), err), 0.0, CprF)
  }

  function PllVel(e: Enc, g: Gains, err: real): real {
    var v := e.velEst + Scale(Scale(g.period, g.pllKi), err);
    if Abs(v) < g.snap then 0.0 else v
  }

  function Pll(e: Enc, g: Gains): Enc {
    var err := PllError(e, g);
    e.(posCpr := PllPos(e, g, err), velEst := PllVel(e, g, err))
  }

  function Snapped(e: Enc, g: Gains): bool {
    Abs(e.velEst + Scale(Scale(g.period, g.pllKi), PllError(e, g))) < g.snap
  }

  function Interp(e: Enc, g: Gains, snapped: bool, delta: int): real {
    if snapped then 0.5
    else if delta > 0 then 0.0
    else if delta < 0 then 1.0
    else Clamp(e.interp + Scale(g.period, e.velEst), 0.0, 1.0)
  }

  function Outputs(e: Enc, g: Gains): Enc {
    var enc := Wrap(e.cnt as real + e.interp, 0.0, CprF);
    e.(pos := e.shadow as real / CprF,
       phase := Scale(Scale(enc, Trig.TwoPi), g.polePairs as real) / CprF - e.offset)
  }

  /** The speed in turns, a moving average of the tracking loop's, and the angles it leads to. */
  function Speed(e: Enc): real {
    e.vel - (2.0 / 6.0) * (e.vel - e.velEst / CprF)
  }

  function Speeds(e: Enc, g: Gains): Enc {
    e.(vel := Speed(e), phaseVel := Scale(Scale(Speed(e), Trig.TwoPi), g.polePairs as real),
       eAngle := (e.cnt * g.polePairs) as real / CprF)
  }

  function Step(e: Enc, g: Gains, s: Sample, ccw: bool): Enc {
    var counted := Unwrap(e, s, ccw);
    var tracked := Pll(counted, g);
    Speeds(Outputs(tracked.(interp := Interp(tracked, g, Snapped(counted, g), Delta(counted.cnt, e.prev))), g), g)
  }

  lemma UnwrapCount(e: Enc, s: Sample, ccw: bool)
    ensures var f := Unwrap(e, s, ccw); f.interp == e.interp && f.shadow == e.shadow + Delta(f.cnt, e.prev)
  {
  }

  class Sensor {
    var raw: int
    var cnt: int
    var prev: int
    var shadow: int
    var posCpr: real
    var velEst: real
    var interp: real
    var pos: real
    var phase: real
    var vel: real
    var phaseVel: real
    var eAngle: real
    var offset: real
    const gains: Gains

    function Value(): Enc
      reads this
    {
      Enc(raw, cnt, prev, shadow, posCpr, velEst, interp, pos, phase, vel, phaseVel, eAngle, offset)
    }

    constructor (gains: Gains)
      ensures Value() == Zero && this.gains == gains
    {
      this.gains := gains;
      raw, cnt, prev, shadow, posCpr := 0, 0, 0, 0, 0.0;
      velEst, interp, pos, phase := 0.0, 0.0, 0.0, 0.0;
      vel, phaseVel, eAngle, offset := 0.0, 0.0, 0.0, 0.0;
    }

    method Init()
      modifies this
      ensures Value() == Reset(old(Value()))
    {
      InitCounts();
      InitOutputs();
    }

    method InitCounts()
      modifies this`raw, this`cnt, this`prev, this`shadow, this`posCpr, this`velEst
      ensures raw == cnt == prev == shadow == 0 && posCpr == velEst == 0.0
    {
      raw, cnt, prev, shadow, posCpr, velEst := 0, 0, 0, 0, 0.0, 0.0;
    }

    method InitOutputs()
      modifies this`interp, this`pos, this`phase, this`vel, this`phaseVel
      ensures interp == pos == phase == vel == phaseVel == 0.0
    {
      interp, pos, phase, vel, phaseVel := 0.0, 0.0, 0.0, 0.0, 0.0;
    }

    method Loop(s: Sample, ccw: bool)
      modifies this
      ensures Value() == Step(old(Value()), gains, s, ccw)
    {
      hide Unwrap, Pll, Snapped, Outputs, Interp, Delta, Speeds;
      UnwrapCount(Value(), s, ccw);
      var delta := Count(s, ccw);
      var snap := Track();
      Interpolate(snap, delta);
      Publish();
      PublishSpeed();
    }

    method Count(s: Sample, ccw: bool) returns (delta: int)
      modifies this`raw, this`cnt, this`prev, this`shadow
      ensures Value() == Unwrap(old(Value()), s, ccw)
      ensures delta == Delta(cnt, old(prev))
    {
      hide WrapInt, OffInterp;
      if s.Angle? {
        if ccw {
          raw := s.counts;
        } else {
          raw := Cpr - s.counts;
        }
      }
      var count := raw - OffInterp(raw);
      cnt := WrapCounts(count, 0, Cpr);
      delta := cnt - prev;
      prev := cnt;
      delta := WrapCounts(delta, -Half, Half);
      shadow := shadow + delta;
    }

    method Track() returns (snap: bool)
      modifies this`posCpr, this`velEst
      ensures Value() == Pll(old(Value()), gains)
      ensures snap == Snapped(old(Value()), gains)
    {
      hide Wrap, Scale, Trunc, Abs;
      var predicted := posCpr + Scale(gains.period, velEst);
      var delta := (cnt - Trunc(predicted)) as real;
      delta := WrapReal(delta, -Half as real, Half as real);
      posCpr := WrapReal(predicted + Scale(Scale(gains.period, gains.pllKp), delta), 0.0, CprF);
      velEst := velEst + Scale(Scale(gains.period, gains.pllKi), delta);
      snap := false;
      if Abs(velEst) < gains.snap {
        velEst := 0.0;
        snap := true;
      }
    }

    method Interpolate(snap: bool, delta: int)
      modifies this`interp
      ensures Value() == old(Value()).(interp := Interp(old(Value()), gains, snap, delta))
    {
      hide Scale;
      if snap {
        interp := 0.5;
      } else if delta > 0 {
        interp := 0.0;
      } else if delta < 0 {
        interp := 1.0;
      } else {
        interp := interp + Scale(gains.period, velEst);
        if interp > 1.0 {
          interp := 1.0;
        }
        if interp < 0.0 {
          interp := 0.0;
        }
      }
    }

    method Publish()
      modifies this`pos, this`phase
      ensures Value() == Outputs(old(Value()), gains)
    {
      hide Wrap, Scale;
      var enc := WrapReal(cnt as real + interp, 0.0, CprF);
      var turns := shadow as real / CprF;
      var residual := shadow as real - turns * CprF;
      pos := turns + residual / CprF;
      phase := Scale(Scale(enc, Trig.TwoPi), gains.polePairs as real) / CprF - offset;
    }

    method PublishSpeed()
      modifies this`vel, this`phaseVel, this`eAngle
      ensures Value() == Speeds(old(Value()), gains)
    {
      hide Scale;
      vel := vel - (2.0 / 6.0) * (vel - velEst / CprF);
      phaseVel := Scale(Scale(vel, Trig.TwoPi), gains.polePairs as real);
      eAngle := (cnt * gains.polePairs) as real / CprF;
    }
  }

  // ----- What every call keeps ----------------------------------------------------------

  ghost predicate Valid(e: Enc) {
    && 0 <= e.cnt <= Cpr && e.prev == e.cnt
    && e.shadow % Cpr == e.cnt % Cpr
    && 0.0 <= e.posCpr <= CprF
    && 0.0 <= e.interp <= 1.0
    && e.pos == e.shadow as real / CprF
  }

  lemma StepValid(e: Enc, g: Gains, s: Sample, ccw: bool)
    requires Valid(e)
    ensures Valid(Step(e, g, s, ccw))
  {
    hide Wrap, WrapInt, Scale, PllError, OffInterp, Abs, Trunc;
    var raw := Raw(e, s, ccw);
    var count := raw - OffInterp(raw);
    WrapIntLaw(count, 0, Cpr);
    var cnt := WrapInt(count, 0, Cpr);
    WrapIntLaw(cnt - e.prev, -Half, Half);
    Congruent(e.shadow, e.prev, cnt, Delta(cnt, e.prev));
    var counted := Unwrap(e, s, ccw);
    var err := PllError(counted, g);
    WrapLaw(counted.posCpr + Scale(g.period, counted.velEst) + Scale(Scale(g.period, g.pllKp), err), 0.0, CprF);
  }

  lemma Congruent(shadow: int, prev: int, cnt: int, delta: int)
    requires shadow % Cpr == prev % Cpr && delta % Cpr == (cnt - prev) % Cpr
    ensures (shadow + delta) % Cpr == cnt % Cpr
  {
  }

  // ----- Multi-turn tracking ------------------------------------------------------------

  /** What the sensor reports at a true position: the count rises with the position in one
      mounting direction and falls in the other. */
  function Reading(p: int, ccw: bool): Sample {
    Angle(if ccw then p % Cpr else (-p) % Cpr)
  }

  /** The encoder last saw the position `p`. */
  ghost predicate At(e: Enc, p: int, ccw: bool) {
    && Valid(e)
    && e.raw == Raw(e, Reading(p, ccw), ccw) && e.cnt == e.raw
  }

  lemma ReadingLaw(e: Enc, p: int, ccw: bool)
    ensures var raw := Raw(e, Reading(p, ccw), ccw);
            0 <= raw <= Cpr && raw % Cpr == p % Cpr && WrapInt(raw - OffInterp(raw), 0, Cpr) == raw
  {
  }

  /** The recorded movement, in counts, from one seen position to the next. */
  function Seen(p: int, q: int, ccw: bool): int {
    Delta(Raw(Zero, Reading(q, ccw), ccw), Raw(Zero, Reading(p, ccw), ccw))
  }

  lemma ReadStep(e: Enc, g: Gains, p: int, q: int, ccw: bool)
    requires At(e, p, ccw)
    ensures var f := Step(e, g, Reading(q, ccw), ccw);
            At(f, q, ccw) && f.shadow == e.shadow + Seen(p, q, ccw)
  {
    StepValid(e, g, Reading(q, ccw), ccw);
    ReadingLaw(e, q, ccw);
    hide Wrap, WrapInt, Scale, PllError, PllPos, PllVel, Outputs, Interp, Snapped, OffInterp, Valid, Speed;
  }

  /** A failed exchange moves nothing but the tracking loop. */
  lemma FailedStep(e: Enc, g: Gains, p: int, ccw: bool)
    requires At(e, p, ccw)
    ensures var f := Step(e, g, Failed, ccw);
            At(f, p, ccw) && f.shadow == e.shadow
  {
    StepValid(e, g, Failed, ccw);
    ReadingLaw(e, p, ccw);
    WrapIntLaw(0, -Half, Half);
    hide Wrap, WrapInt, Scale, PllError, PllPos, PllVel, Interp, Snapped, OffInterp, Valid, Speed;
  }

  /** The movement is seen exactly when it is less than half a turn, or is half a turn and does
      not pass the zero mark. */
  lemma SeenIff(p: int, q: int, ccw: bool)
    ensures -Half <= Seen(p, q, ccw) <= Half && Seen(p, q, ccw) % Cpr == (q - p) % Cpr
    ensures Seen(p, q, ccw) == q - p <==>
              || -Half < q - p < Half
              || ((q - p == Half || q - p == -Half) &&
                  Raw(Zero, Reading(q, ccw), ccw) - Raw(Zero, Reading(p, ccw), ccw) == q - p)
  {
    var r, t := Raw(Zero, Reading(q, ccw), ccw), Raw(Zero, Reading(p, ccw), ccw);
    ReadingLaw(Zero, p, ccw);
    ReadingLaw(Zero, q, ccw);
    hide Reading, Raw, OffInterp;
    SeenExactly(t, r, p, q);
  }

  lemma SeenExactly(t: int, r: int, p: int, q: int)
    requires 0 <= r <= Cpr && 0 <= t <= Cpr && r % Cpr == q % Cpr && t % Cpr == p % Cpr
    ensures -Half <= Delta(r, t) <= Half && Delta(r, t) % Cpr == (q - p) % Cpr
    ensures Delta(r, t) == q - p <==>
              -Half < q - p < Half || ((q - p == Half || q - p == -Half) && r - t == q - p)
  {
    hide WrapInt;
    WrapIntLaw(r - t, -Half, Half);
    ResidueDifference(r, q, t, p);
    SameResidue(Delta(r, t), q - p);
  }

  lemma ResidueDifference(r: int, q: int, t: int, p: int)
    requires r % Cpr == q % Cpr && t % Cpr == p % Cpr
    ensures (r - t) % Cpr == (q - p) % Cpr
  {
  }

  /** Two congruent numbers that differ by less than a turn are equal. */
  lemma SameResidue(a: int, b: int)
    ensures a % Cpr == b % Cpr && -Cpr < a - b < Cpr ==> a == b
  {
  }

  /** A call sees the true position or fails. */
  datatype Event = Sighting(p: int) | Missed

  function Run(e: Enc, g: Gains, samples: seq<Sample>, ccw: bool): Enc
    decreases |samples|
  {
    if samples == [] then e else
      var last := |samples| - 1;
      Step(Run(e, g, samples[..last], ccw), g, samples[last], ccw)
  }

  /** What the sensor delivers at an event. */
  function Sampled(e: Event, ccw: bool): Sample {
    if e.Sighting? then Reading(e.p, ccw) else Failed
  }

  /** The samples are what the sensor delivers at the events. */
  ghost predicate Delivers(samples: seq<Sample>, events: seq<Event>, ccw: bool) {
    |samples| == |events| && forall k :: 0 <= k < |events| ==> samples[k] == Sampled(events[k], ccw)
  }

  /** The last position seen. */
  function LastSeen(events: seq<Event>, p: int): int
    decreases |events|
  {
    if events == [] then p else
      var last := |events| - 1;
      if events[last].Sighting? then events[last].p else LastSeen(events[..last], p)
  }

  /** Between successive positions seen the shaft moves less than half a turn. */
  ghost predicate Slow(events: seq<Event>, p: int)
    decreases |events|
  {
    events == [] ||
    var last := |events| - 1;
    && Slow(events[..last], p)
    && (events[last].Sighting? ==> -Half < events[last].p - LastSeen(events[..last], p) < Half)
  }

  /** The shadow count follows the true position over any number of turns. */
  lemma {:induction false} Tracks(e: Enc, g: Gains, samples: seq<Sample>, events: seq<Event>, ccw: bool, p: int)
    requires At(e, p, ccw) && Slow(events, p) && Delivers(samples, events, ccw)
    ensures var f := Run(e, g, samples, ccw);
      && At(f, LastSeen(events, p), ccw)
      && f.shadow - LastSeen(events, p) == e.shadow - p
      && f.pos == f.shadow as real / CprF
    decreases |events|
  {
    hide Step, Seen;
    if events != [] {
      var last := |events| - 1;
      Tracks(e, g, samples[..last], events[..last], ccw, p);
      var f, q := Run(e, g, samples[..last], ccw), LastSeen(events[..last], p);
      if events[last].Sighting? {
        ReadStep(f, g, q, events[last].p, ccw);
        SeenIff(q, events[last].p, ccw);
      } else {
        FailedStep(f, g, q, ccw);
      }
    }
  }

  /** Nothing has been read since the reset. */
  ghost predicate Unseen(e: Enc) {
    Valid(e) && e.raw == 0 && e.cnt == 0 && e.shadow == 0
  }

  /** A reset forgets every count and keeps what the alignment measured. */
  lemma ResetUnseen(e: Enc)
    ensures Unseen(Reset(e)) && Reset(e).offset == e.offset && Reset(e).eAngle == e.eAngle
  {
  }

  lemma UnseenFailedStep(e: Enc, g: Gains, ccw: bool)
    requires Unseen(e)
    ensures Unseen(Step(e, g, Failed, ccw))
  {
    StepValid(e, g, Failed, ccw);
    OffInterpIsZero(0);
    WrapIntLaw(0, 0, Cpr);
    WrapIntLaw(0, -Half, Half);
    hide Wrap, WrapInt, Scale, PllError, PllPos, PllVel, Interp, Snapped, OffInterp, Valid, Speed;
  }

  /** The turn a first position is taken to lie on: the nearest. */
  function FirstCount(p: int, ccw: bool): int {
    Delta(Raw(Zero, Reading(p, ccw), ccw), 0)
  }

  lemma FirstCountLaw(p: int, ccw: bool)
    ensures -Half <= FirstCount(p, ccw) <= Half && FirstCount(p, ccw) % Cpr == p % Cpr
    ensures -Half < p < Half ==> FirstCount(p, ccw) == p
  {
    ReadingLaw(Zero, p, ccw);
    SeenExactly(0, Raw(Zero, Reading(p, ccw), ccw), 0, p);
  }

  /** After reset the first reading fixes the turn. */
  lemma FirstReading(e: Enc, g: Gains, p: int, ccw: bool)
    requires Unseen(e)
    ensures var f := Step(e, g, Reading(p, ccw), ccw);
            At(f, p, ccw) && f.shadow == FirstCount(p, ccw)
  {
    StepValid(e, g, Reading(p, ccw), ccw);
    ReadingLaw(e, p, ccw);
    hide Wrap, WrapInt, Scale, PllError, PllPos, PllVel, Outputs, Interp, Snapped, OffInterp, Valid, Speed;
  }

  /** The first position seen, if any. */
  function FirstSeen(events: seq<Event>): (first: seq<int>)
    ensures |first| <= 1
    decreases |events|
  {
    if events == [] then [] else
      var last := |events| - 1;
      var before := FirstSeen(events[..last]);
      if before == [] && events[last].Sighting? then [events[last].p] else before
  }

  /** From a reset, in either mounting direction and however many samples fail: until a position
      is seen the shadow count is zero, and from then on it follows the true position, at the
      distance the first reading fixed, over any number of turns. */
  lemma {:induction false} TracksFromReset(e: Enc, g: Gains, samples: seq<Sample>, events: seq<Event>, ccw: bool)
    requires Unseen(e) && Delivers(samples, events, ccw)
    requires FirstSeen(events) != [] ==> Slow(events, FirstSeen(events)[0])
    ensures var f, first := Run(e, g, samples, ccw), FirstSeen(events);
      if first == [] then Unseen(f) else
        && At(f, LastSeen(events, first[0]), ccw)
        && f.shadow - LastSeen(events, first[0]) == FirstCount(first[0], ccw) - first[0]
        && f.pos == f.shadow as real / CprF
    decreases |events|
  {
    hide Step, Seen, FirstCount, Unseen;
    if events != [] {
      var last := |events| - 1;
      var before, first := FirstSeen(events[..last]), FirstSeen(events);
      TracksFromReset(e, g, samples[..last], events[..last], ccw);
      var f := Run(e, g, samples[..last], ccw);
      if before == [] {
        if events[last].Sighting? {
          FirstReading(f, g, events[last].p, ccw);
        } else {
          UnseenFailedStep(f, g, ccw);
        }
      } else {
        var q := LastSeen(events[..last], first[0]);
        if events[last].Sighting? {
          ReadStep(f, g, q, events[last].p, ccw);
          SeenIff(q, events[last].p, ccw);
        } else {
          FailedStep(f, g, q, ccw);
        }
      }
    }
  }

  // ----- What a call does not read ------------------------------------------------------

  /** Equal but for the phase and the alignment offset. */
  predicate SameCounts(e: Enc, f: Enc) {
    f == e.(phase := f.phase, offset := f.offset)
  }

  /** Neither normalising the phase nor moving the offset disturbs the counting. */
  lemma CountsIgnorePhase(e: Enc, f: Enc, g: Gains, s: Sample, ccw: bool)
    requires SameCounts(e, f)
    ensures SameCounts(Step(e, g, s, ccw), Step(f, g, s, ccw))
  {
    hide Wrap, WrapInt, Scale, OffInterp, Trunc, Abs, Clamp;
  }

  // ----- What the tracking loop and the outputs do --------------------------------------

  /** The tracking loop, written out: it predicts the position from the speed, takes the error of the
      count against the whole part of the prediction, to the nearest turn, and corrects position
      and speed by their gains; a speed below the threshold is taken for standstill. */
  lemma TrackingLaw(e: Enc, g: Gains)
    ensures var n, predicted := Pll(e, g), e.posCpr + g.period * e.velEst;
            var err, v := PllError(e, g), e.velEst + g.period * g.pllKi * PllError(e, g);
      && -8192.0 <= err <= 8192.0
      && (-8192.0 <= (e.cnt - Trunc(predicted)) as real <= 8192.0 ==> err == (e.cnt - Trunc(predicted)) as real)
      && (0.0 <= predicted + g.period * g.pllKp * err <= CprF ==> n.posCpr == predicted + g.period * g.pllKp * err)
      && n.velEst == (if -g.snap < v < g.snap then 0.0 else v)
      && (Snapped(e, g) <==> -g.snap < v < g.snap)
      && n == e.(posCpr := n.posCpr, velEst := n.velEst)
  {
    hide Wrap, Trunc, Scale;
    var err := PllError(e, g);
    ScaleTwice(1.0, g.period, e.velEst);
    ScaleTwice(g.period, g.pllKp, err);
    ScaleTwice(g.period, g.pllKi, err);
    WrapLaw((e.cnt - Trunc(e.posCpr + Scale(g.period, e.velEst))) as real, -Half as real, Half as real);
    WrapLaw(e.posCpr + Scale(g.period, e.velEst) + Scale(Scale(g.period, g.pllKp), err), 0.0, CprF);
  }

  lemma ScaleTwice(a: real, b: real, x: real)
    ensures Scale(Scale(a, b), x) == a * b * x && Scale(b, x) == b * x
  {
  }

  /** A loop that predicts the count exactly is at rest: it keeps the prediction and the speed. */
  lemma TrackingAtRest(e: Enc, g: Gains)
    requires e.posCpr + g.period * e.velEst == e.cnt as real && 0 <= e.cnt <= Cpr
    requires !(-g.snap < e.velEst < g.snap)
    ensures PllError(e, g) == 0.0 && Pll(e, g) == e.(posCpr := e.cnt as real)
  {
    TrackingLaw(e, g);
    hide PllError, Pll, Snapped;
    assert g.period * g.pllKp * 0.0 == 0.0 && g.period * g.pllKi * 0.0 == 0.0;
  }

  /** The interpolation stands in the middle at standstill, at the edge the shaft came over after a
      count, and moves with the estimated speed in between. */
  lemma InterpLaw(e: Enc, g: Gains, snapped: bool, delta: int)
    ensures var x, moved := Interp(e, g, snapped, delta), e.interp + g.period * e.velEst;
      && (snapped ==> x == 0.5)
      && (!snapped && delta > 0 ==> x == 0.0) && (!snapped && delta < 0 ==> x == 1.0)
      && (!snapped && delta == 0 ==> x == if moved > 1.0 then 1.0 else if moved < 0.0 then 0.0 else moved)
  {
  }

  /** The outputs, written out: with the interpolated count on the turn, the phase is that share of
      `polePairs` electrical turns less the alignment offset; speed and angles follow. */
  lemma OutputsLaw(e: Enc, g: Gains)
    requires 0.0 <= e.cnt as real + e.interp <= CprF
    ensures var n := Speeds(Outputs(e, g), g);
      && (n.phase + e.offset) * CprF == (e.cnt as real + e.interp) * Trig.TwoPi * g.polePairs as real
      && n.pos * CprF == e.shadow as real
      && 3.0 * n.vel == 2.0 * e.vel + e.velEst / CprF
      && n.phaseVel == n.vel * Trig.TwoPi * g.polePairs as real
      && n.eAngle * CprF == (e.cnt * g.polePairs) as real
      && n == e.(pos := n.pos, phase := n.phase, vel := n.vel, phaseVel := n.phaseVel, eAngle := n.eAngle)
  {
    WrapLaw(e.cnt as real + e.interp, 0.0, CprF);
    hide Wrap;
  }

  /** A whole call on the count it ends with: the tracking loop on that count, the interpolation by how
      the shadow count moved, and the outputs from all of these and the speed so far. */
  lemma StepLaw(e: Enc, g: Gains, s: Sample, ccw: bool)
    ensures var n := Step(e, g, s, ccw);
            var f := e.(cnt := n.cnt);
      && n.posCpr == Pll(f, g).posCpr && n.velEst == Pll(f, g).velEst
      && n.interp == Interp(Pll(f, g), g, Snapped(f, g), n.shadow - e.shadow)
      && n == Speeds(Outputs(n.(vel := e.vel), g), g) && n.offset == e.offset
  {
    hide WrapInt, Wrap, Scale, OffInterp, Trunc, Abs, Clamp;
  }

  /** Past the last count the interpolated position lies at the start of the turn. */
  lemma OutputsWrap(e: Enc, g: Gains)
    requires e.cnt as real + e.interp > CprF
    ensures Outputs(e, g).phase == Outputs(e.(interp := e.interp - CprF), g).phase
  {
    WrapStep(e.cnt as real + e.interp, 0.0, CprF);
    hide Wrap, Scale;
  }
}
