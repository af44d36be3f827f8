/** The calibration sequence of calibration.c: termination for every measured current, and the
    voltages of the inductance phase. */
module Calibration {
  import opened Numeric
  import opened MotorTypes
  import opened Transform
  import Trig

  // ----- `Calibration_Init` and `Calibration_Start` -------------------------------------

  function Reset(c: Cfg): Calib
    requires c.carrier > 0
  {
    Calib(Null, 1.0 / c.carrier as real, 0.0, 0.0, 0.0, 0, 0, 0.0, 0.0)
  }

  /** A start leaves the output type of an earlier calibration in place. */
  function Started(k: Calib, c: Cfg): Calib
    requires c.carrier > 0
  {
    Calib(RStart, 1.0 / c.carrier as real, c.calibCurrent, c.calibVoltage, 0.0, k.outputType, 0, 0.0, 0.0)
  }

  method InitCalibration(m: Motor)
    requires m.cfg.carrier > 0
    modifies m`calib
    ensures m.calib == Reset(m.cfg)
  {
    m.calib := Zeroed(m.cfg).calib;
    m.calib := m.calib.(ts := 1.0 / m.cfg.carrier as real);
  }

  method StartCalibration(m: Motor)
    requires m.cfg.carrier > 0
    modifies m`calib, m`pwm, m`run
    ensures m.calib == Started(old(m.calib), m.cfg)
    ensures m.pwm == old(m.pwm).(enabled := true) && m.run == old(m.run).(status := Calibrate)
  {
    m.calib := m.calib.(current := m.cfg.calibCurrent, voltage := m.cfg.calibVoltage);
    m.calib := m.calib.(ts := 1.0 / m.cfg.carrier as real);
    m.calib := m.calib.(resistance := 0.0, loopCount := 0, testVoltage := 0.0, phaseSet := 0.0);
    m.pwm := m.pwm.(enabled := true);
    m.calib := m.calib.(step := RStart);
    m.run := m.run.(status := Calibrate);
  }

  // ----- `Calibration_Loop` -------------------------------------------------------------

  const MaxVoltage := 2.0
  const PhaseVel := Trig.Pi
  const LastPhase := 4.0 * Trig.TwoPi

  /** The test voltage integrates the current error, with an integral gain of one. */
  function TestVoltage(k: Calib, iu: real): real {
    k.testVoltage + Scale(k.ts, k.current - iu)
  }

  /** Calls of the two counted phases, for a carrier frequency. */
  function RCycles(carrier: int): int { carrier * 2 }

  function LCycles(carrier: int): int { carrier / 2 }

  function RLoopNext(k: Calib, carrier: int, iu: real): Calib {
    var v := TestVoltage(k, iu);
    var over := Abs(v) > MaxVoltage;
    k.(testVoltage := v, outputType := if over then 0 else 2,
       step := if over || k.loopCount >= RCycles(carrier) then REnd else RLoop)
  }

  function LLoopNext(k: Calib, carrier: int): Calib {
    var over := k.loopCount >= LCycles(carrier);
    k.(testVoltage := -k.testVoltage, outputType := if over then 0 else 2, step := if over then LEnd else LLoop)
  }

  function PpLoopNext(k: Calib): Calib {
    var phase := k.phaseSet + Scale(PhaseVel, k.ts);
    k.(phaseSet := phase, outputType := 1, step := if phase >= LastPhase then PpEnd else PpLoop)
  }

  /** The record after the switch, before the loop counter moves on. `undef` is what the
      division yields when the configured current is zero. */
  function Switch(k: Calib, c: Cfg, iu: real, undef: real): Calib {
    match k.step
    case Null => k
    case RStart => k.(loopCount := 0, testVoltage := 0.0, step := RLoop)
    case RLoop => RLoopNext(k, c.carrier, iu)
    case REnd => k.(resistance := if k.current == 0.0 then undef else k.testVoltage / k.current, step := LStart)
    case LStart => k.(loopCount := 0, testVoltage := k.voltage, step := LLoop)
    case LLoop => LLoopNext(k, c.carrier)
    case LEnd => k.(phaseSet := 0.0, loopCount := 0, step := if c.observer == UseEncoder then PpStart else Null)
    case PpStart =>
      k.(outputType := 1, step := if Scale(k.loopCount as real, k.ts) >= 2.0 then PpLoop else PpStart)
    case PpLoop => PpLoopNext(k)
    case PpEnd => k.(outputType := 0, step := Null)
  }

  function Next(k: Calib, c: Cfg, iu: real, undef: real): Calib {
    var n := Switch(k, c, iu, undef);
    n.(loopCount := n.loopCount + 1)
  }

  /** The d voltage that holds the calibration current. */
  function HoldVoltage(k: Calib): real {
    Scale(k.current, k.resistance) * 3.0 / 2.0
  }

  /** What one call does to the shared parameters, given the record after the call. */
  function Drives(k: Calib, n: Calib, c: Cfg, r: Run): Run {
    match k.step
    case RLoop =>
      var r := if n.outputType == 2 then r.(uab := AB(n.testVoltage, 0.0)) else r;
      if k.loopCount >= RCycles(c.carrier) then r.(uab := AB(0.0, r.uab.beta)) else r
    case LLoop => r.(uab := AB(n.testVoltage, 0.0))
    case LEnd => if c.observer == UseEncoder then r else r.(status := Idle)
    case PpStart => r.(uqdRef := QD(HoldVoltage(k), 0.0), drvAngle := k.phaseSet)
    case PpLoop => r.(uqdRef := QD(HoldVoltage(k), 0.0), drvAngle := n.phaseSet)
    case PpEnd => r.(status := Idle)
    case _ => r
  }

  method Loop(m: Motor, undef: real)
    modifies m`calib, m`run
    ensures m.calib == Next(old(m.calib), m.cfg, old(m.run).iuvw.u, undef)
    ensures m.run == Drives(old(m.calib), m.calib, m.cfg, old(m.run))
  {
    hide Scale, Abs;
    match m.calib.step {
      case Null =>
      case RStart =>
        m.calib := m.calib.(loopCount := 0);
        m.calib := m.calib.(testVoltage := 0.0);
        m.calib := m.calib.(step := RLoop);
      case RLoop =>
        LoopR(m);
      case REnd =>
        var r := if m.calib.current == 0.0 then undef else m.calib.testVoltage / m.calib.current;
        m.calib := m.calib.(resistance := r);
        m.calib := m.calib.(step := LStart);
      case LStart =>
        m.calib := m.calib.(loopCount := 0);
        m.calib := m.calib.(testVoltage := m.calib.voltage);
        m.calib := m.calib.(step := LLoop);
      case LLoop =>
        m.calib := m.calib.(testVoltage := -m.calib.testVoltage);
        m.run := m.run.(uab := AB(m.calib.testVoltage, 0.0));
        m.calib := m.calib.(outputType := 2);
        if m.calib.loopCount >= LCycles(m.cfg.carrier) {
          m.calib := m.calib.(outputType := 0);
          m.calib := m.calib.(step := LEnd);
        }
      case LEnd =>
        m.calib := m.calib.(phaseSet := 0.0);
        m.calib := m.calib.(loopCount := 0);
        if m.cfg.observer == UseEncoder {
          m.calib := m.calib.(step := PpStart);
        } else {
          m.calib := m.calib.(step := Null);
          m.run := m.run.(status := Idle);
        }
      case PpStart =>
        m.run := m.run.(uqdRef := QD(HoldVoltage(m.calib), 0.0));
        m.run := m.run.(drvAngle := m.calib.phaseSet);
        m.calib := m.calib.(outputType := 1);
        if Scale(m.calib.loopCount as real, m.calib.ts) >= 2.0 {
          m.calib := m.calib.(step := PpLoop);
        }
      case PpLoop =>
        var voltage := HoldVoltage(m.calib);
        m.calib := m.calib.(phaseSet := m.calib.phaseSet + Scale(PhaseVel, m.calib.ts));
        m.run := m.run.(uqdRef := QD(voltage, 0.0));
        m.run := m.run.(drvAngle := m.calib.phaseSet);
        m.calib := m.calib.(outputType := 1);
        if m.calib.phaseSet >= LastPhase {
          m.calib := m.calib.(step := PpEnd);
        }
      case PpEnd =>
        m.calib := m.calib.(outputType := 0);
        m.calib := m.calib.(step := Null);
        m.run := m.run.(status := Idle);
    }
    m.calib := m.calib.(loopCount := m.calib.loopCount + 1);
  }

  method LoopR(m: Motor)
    requires m.calib.step == RLoop
    modifies m`calib, m`run
    ensures m.calib == RLoopNext(old(m.calib), m.cfg.carrier, old(m.run).iuvw.u)
    ensures m.run == Drives(old(m.calib), m.calib, m.cfg, old(m.run))
  {
    hide Scale, Abs;
    var actual := m.run.iuvw.u;
    m.calib := m.calib.(testVoltage := m.calib.testVoltage + Scale(m.calib.ts, m.calib.current - actual));
    if Abs(m.calib.testVoltage) > MaxVoltage {
      m.calib := m.calib.(outputType := 0);
      m.calib := m.calib.(step := REnd);
    } else {
      m.calib := m.calib.(outputType := 2);
      m.run := m.run.(uab := AB(m.calib.testVoltage, 0.0));
    }
    if m.calib.loopCount >= RCycles(m.cfg.carrier) {
      m.run := m.run.(uab := AB(0.0, m.run.uab.beta));
      m.calib := m.calib.(step := REnd);
    }
  }

  // ----- Termination --------------------------------------------------------------------

  /** What every call keeps. */
  predicate Valid(k: Calib, c: Cfg) {
    && c.carrier > 0 && k.ts == 1.0 / c.carrier as real
    && (k.step == LEnd ==> k.outputType == 0)
    && (k.step == LLoop || k.step == PpStart || k.step == RLoop ==> k.loopCount >= 1)
  }

  lemma NextValid(k: Calib, c: Cfg, iu: real, undef: real)
    requires Valid(k, c)
    ensures Valid(Next(k, c, iu, undef), c)
  {
    hide Scale, Abs;
  }

  /** Calls left in the turning phase: whole phase increments up to four electrical turns. */
  function TurnsLeft(phase: real, carrier: int): int
    requires carrier > 0
  {
    AtLeastOne(-((-((LastPhase - phase) * carrier as real / PhaseVel)).Floor))
  }

  function PpLength(c: Cfg): int {
    if c.observer == UseEncoder then RCycles(c.carrier) + 8 * c.carrier + 1 else 0
  }

  function LLength(c: Cfg): int {
    1 + AtLeastOne(LCycles(c.carrier)) + 1
  }

  /** An upper bound of the calls left, exact while the test voltage stays within its limit. */
  function Left(k: Calib, c: Cfg): int
    requires c.carrier > 0
  {
    match k.step
    case Null => 0
    case RStart => 1 + RCycles(c.carrier) + 1 + LLength(c) + PpLength(c)
    case RLoop => AtLeastOne(RCycles(c.carrier) - k.loopCount + 1) + 1 + LLength(c) + PpLength(c)
    case REnd => 1 + LLength(c) + PpLength(c)
    case LStart => LLength(c) + PpLength(c)
    case LLoop => AtLeastOne(LCycles(c.carrier) - k.loopCount + 1) + 1 + PpLength(c)
    case LEnd => 1 + PpLength(c)
    case PpStart => AtLeastOne(RCycles(c.carrier) - k.loopCount + 1) + 8 * c.carrier + 1
    case PpLoop => TurnsLeft(k.phaseSet, c.carrier) + 1
    case PpEnd => 1
  }

  lemma TimeIsCount(count: int, carrier: int)
    requires carrier > 0
    ensures Scale(count as real, 1.0 / carrier as real) >= 2.0 <==> count >= RCycles(carrier)
  {
    var t := Scale(count as real, 1.0 / carrier as real);
    assert t * carrier as real == count as real;
    if t >= 2.0 {
      MulOrder(2.0, t, carrier as real);
    } else {
      assert (2.0 - t) * carrier as real > 0.0;
    }
  }

  lemma TurnsLeftStep(phase: real, carrier: int)
    requires carrier > 0
    ensures var p := phase + Scale(PhaseVel, 1.0 / carrier as real);
            if p >= LastPhase then TurnsLeft(phase, carrier) == 1
            else TurnsLeft(p, carrier) == TurnsLeft(phase, carrier) - 1
  {
    var f := carrier as real;
    var p := phase + Scale(PhaseVel, 1.0 / f);
    var x := (LastPhase - phase) * f / PhaseVel;
    assert PhaseVel * (1.0 / f) * f == PhaseVel;
    assert (LastPhase - p) * f == (LastPhase - phase) * f - PhaseVel;
    assert (LastPhase - p) * f / PhaseVel == x - 1.0;
    if p >= LastPhase {
      assert (p - LastPhase) * f >= 0.0;
    } else {
      assert (LastPhase - p) * f > 0.0;
    }
  }

  lemma TurnsFromZero(carrier: int)
    requires carrier > 0
    ensures TurnsLeft(0.0, carrier) == 8 * carrier
  {
    assert (LastPhase - 0.0) * carrier as real / PhaseVel == 8.0 * carrier as real;
  }

  ghost predicate Going(k: Calib, c: Cfg) {
    Valid(k, c) && (k.step == PpStart ==> k.phaseSet == 0.0)
  }

  /** The call gives up on the resistance. */
  predicate GivesUp(k: Calib, iu: real) {
    k.step == RLoop && Abs(TestVoltage(k, iu)) > MaxVoltage
  }

  /** The phases that turn the motor. */
  predicate Turning(s: CalibStep) {
    s == LEnd || s == PpStart || s == PpLoop || s == PpEnd
  }

  /** Every call takes at least one off until the sequence is over, and exactly one unless it
      gives up on the resistance. */
  lemma LeftStep(k: Calib, c: Cfg, iu: real, undef: real)
    requires Going(k, c)
    ensures var n := Next(k, c, iu, undef);
      && (n.step == PpStart ==> n.phaseSet == 0.0)
      && (k.step == Null ==> n.step == Null)
      && (k.step != Null ==> Left(n, c) <= Left(k, c) - 1)
      && (k.step != Null && !GivesUp(k, iu) ==> Left(n, c) == Left(k, c) - 1)
  {
    hide TestVoltage, Scale, Abs;
    if Turning(k.step) {
      LeftStepTurning(k, c, iu, undef);
      hide Left;
    } else if k.step != Null {
      LeftStepResting(k, c, iu, undef);
      hide Left;
    }
  }

  lemma LeftStepTurning(k: Calib, c: Cfg, iu: real, undef: real)
    requires Going(k, c) && Turning(k.step)
    ensures Left(Next(k, c, iu, undef), c) == Left(k, c) - 1
  {
    hide TurnsLeft, Scale, AtLeastOne;
    AtLeastOneLaw(RCycles(c.carrier) - k.loopCount + 1);
    AtLeastOneLaw(RCycles(c.carrier));
    match k.step
    case PpStart =>
      TimeIsCount(k.loopCount, c.carrier);
      TurnsFromZero(c.carrier);
    case PpLoop =>
      TurnsLeftStep(k.phaseSet, c.carrier);
    case _ =>
  }

  lemma LeftStepResting(k: Calib, c: Cfg, iu: real, undef: real)
    requires Going(k, c) && !Turning(k.step) && k.step != Null
    ensures var n := Next(k, c, iu, undef);
      && Left(n, c) <= Left(k, c) - 1
      && (!GivesUp(k, iu) ==> Left(n, c) == Left(k, c) - 1)
  {
    hide PpLength, Abs, TestVoltage, AtLeastOne;
    AtLeastOneLaw(RCycles(c.carrier) - k.loopCount + 1);
    AtLeastOneLaw(LCycles(c.carrier) - k.loopCount + 1);
    AtLeastOneLaw(RCycles(c.carrier));
    AtLeastOneLaw(LCycles(c.carrier));
    match k.step
    case RStart =>
    case RLoop =>
    case LStart =>
    case LLoop =>
    case _ =>
  }

  lemma LeftPositive(k: Calib, c: Cfg)
    requires c.carrier > 0
    ensures Left(k, c) >= 0 && (Left(k, c) == 0 <==> k.step == Null)
  {
    hide TurnsLeft;
    TurnsLeftPositive(k.phaseSet, c.carrier);
  }

  lemma AtLeastOneLaw(n: int)
    ensures AtLeastOne(n) >= 1 && (n >= 1 ==> AtLeastOne(n) == n)
    ensures n >= 2 ==> AtLeastOne(n - 1) == n - 1
    ensures n <= 1 ==> AtLeastOne(n) == 1
  {
  }

  lemma TurnsLeftPositive(phase: real, carrier: int)
    requires carrier > 0
    ensures TurnsLeft(phase, carrier) >= 1
  {
  }

  /** The calibration's length in calls, from its start. */
  function Length(c: Cfg): int {
    var f := c.carrier;
    2 * f + AtLeastOne(f / 2) + (if c.observer == UseEncoder then 2 * f + 8 * f + 5 else 4)
  }

  function Calls(k: Calib, c: Cfg, ius: seq<real>, undef: real): Calib
    decreases |ius|
  {
    if ius == [] then k else
      var last := |ius| - 1;
      Next(Calls(k, c, ius[..last], undef), c, ius[last], undef)
  }

  lemma {:induction false} LeftAfter(k: Calib, c: Cfg, ius: seq<real>, undef: real)
    requires Going(k, c)
    ensures var n := Calls(k, c, ius, undef);
      && Going(n, c) && (n.step == Null || Left(n, c) <= Left(k, c) - |ius|)
    decreases |ius|
  {
    if ius != [] {
      hide Left, Valid, Next;
      var last := |ius| - 1;
      LeftAfter(k, c, ius[..last], undef);
      var n := Calls(k, c, ius[..last], undef);
      LeftStep(n, c, ius[last], undef);
      NextValid(n, c, ius[last], undef);
    }
  }

  /** Whatever currents are measured, a started calibration is over after this many calls. */
  lemma Terminates(k: Calib, c: Cfg, ius: seq<real>, undef: real)
    requires c.carrier > 0 && |ius| >= Length(c)
    ensures Calls(Started(k, c), c, ius, undef).step == Null
  {
    var s := Started(k, c);
    LeftAfter(s, c, ius, undef);
    var n := Calls(s, c, ius, undef);
    LeftPositive(n, c);
    assert Left(s, c) == Length(c);
    hide Left;
  }

  /** The call that ends the sequence leaves the motor idle with no output. */
  lemma EndsIdle(k: Calib, c: Cfg, iu: real, undef: real, r: Run)
    requires Valid(k, c) && k.step != Null
    ensures var n := Next(k, c, iu, undef);
            if n.step == Null then Drives(k, n, c, r).status == Idle && n.outputType == 0
            else Drives(k, n, c, r).status == r.status
  {
    hide Scale, Abs, HoldVoltage;
  }

  // ----- The inductance phase -----------------------------------------------------------

  /** The alpha voltages that the calls demand. */
  function Demanded(k: Calib, c: Cfg, ius: seq<real>, undef: real): real
    decreases |ius|
  {
    if ius == [] then 0.0 else
      Demanded(k, c, ius[..|ius| - 1], undef) + Calls(k, c, ius, undef).testVoltage
  }

  /** The alpha voltages that the bridge is given: the last call of the phase demands a voltage
      but switches the output off. */
  function Driven(k: Calib, c: Cfg, ius: seq<real>, undef: real): real
    decreases |ius|
  {
    if ius == [] then 0.0 else
      var n := Calls(k, c, ius, undef);
      Driven(k, c, ius[..|ius| - 1], undef) + if n.outputType == 2 then n.testVoltage else 0.0
  }

  function Alternate(v: real, n: nat): real {
    if n % 2 == 0 then v else -v
  }

  function LCallCount(c: Cfg): int {
    AtLeastOne(LCycles(c.carrier))
  }

  /** Up to the end of the phase, the calls alternate the voltage, whatever the currents. */
  lemma {:induction false} Alternating(k: Calib, c: Cfg, ius: seq<real>, undef: real)
    requires k.step == LLoop && k.loopCount == 1 && |ius| <= LCallCount(c)
    ensures var n := Calls(k, c, ius, undef);
      && n.loopCount == 1 + |ius|
      && n.testVoltage == Alternate(k.testVoltage, |ius|)
      && n.step == (if |ius| == LCallCount(c) then LEnd else LLoop)
      && Demanded(k, c, ius, undef) == (if |ius| % 2 == 0 then 0.0 else -k.testVoltage)
      && (|ius| < LCallCount(c) ==> Driven(k, c, ius, undef) == Demanded(k, c, ius, undef))
      && (|ius| == LCallCount(c) ==> Driven(k, c, ius, undef) == if |ius| % 2 == 0 then -k.testVoltage else 0.0)
    decreases |ius|
  {
    if ius != [] {
      var last := |ius| - 1;
      Alternating(k, c, ius[..last], undef);
    }
  }

  /** Over the whole inductance phase, whatever the currents, the demanded voltages cancel and
      the test voltage returns to its start exactly when the phase has an even number of calls;
      the voltages given to the bridge cancel exactly when it has an odd number, or none is
      configured. */
  lemma InductancePhase(k: Calib, c: Cfg, iu: real, ius: seq<real>, undef: real)
    requires k.step == LStart && |ius| == LCallCount(c)
    ensures var s := Next(k, c, iu, undef);
            var even := LCallCount(c) % 2 == 0;
      && Calls(s, c, ius, undef).step == LEnd
      && (Demanded(s, c, ius, undef) == 0.0 <==> even || k.voltage == 0.0)
      && (Calls(s, c, ius, undef).testVoltage == k.voltage <==> even || k.voltage == 0.0)
      && (Driven(s, c, ius, undef) == 0.0 <==> !even || k.voltage == 0.0)
      && (even ==> Driven(s, c, ius, undef) == -k.voltage)
  {
    hide Calls, Demanded, Driven;
    var s := Next(k, c, iu, undef);
    Alternating(s, c, ius, undef);
  }

  // ----- What the calibration puts out --------------------------------------------------

  /** The sum of the current errors. */
  function ErrorSum(current: real, ius: seq<real>): real
    decreases |ius|
  {
    if ius == [] then 0.0 else
      ErrorSum(current, ius[..|ius| - 1]) + (current - ius[|ius| - 1])
  }

  /** Every call of the run is one of the resistance loop. */
  ghost predicate AllR(k: Calib, c: Cfg, ius: seq<real>, undef: real)
    decreases |ius|
  {
    ius == [] || (AllR(k, c, ius[..|ius| - 1], undef) && Calls(k, c, ius[..|ius| - 1], undef).step == RLoop)
  }

  /** The resistance loop integrates: its test voltage is the sum of wanted less measured current,
      each held for one carrier period. */
  lemma {:induction false} ResistanceIntegrates(k: Calib, c: Cfg, ius: seq<real>, undef: real)
    requires AllR(k, c, ius, undef)
    ensures var n := Calls(k, c, ius, undef);
      && n.testVoltage == k.testVoltage + Scale(k.ts, ErrorSum(k.current, ius))
      && n.ts == k.ts && n.current == k.current
    decreases |ius|
  {
    hide Scale, Abs;
    if ius == [] {
      NothingSummed(k.ts);
    } else {
      var last := |ius| - 1;
      ResistanceIntegrates(k, c, ius[..last], undef);
      SumScaled(k.ts, ErrorSum(k.current, ius[..last]), k.current - ius[last]);
    }
  }

  lemma NothingSummed(ts: real)
    ensures Scale(ts, 0.0) == 0.0
  {
  }

  lemma SumScaled(ts: real, x: real, y: real)
    ensures Scale(ts, x + y) == Scale(ts, x) + Scale(ts, y)
  {
  }

  /** The voltages, written out. The resistance loop puts its test voltage on the alpha axis, except
      on its last counted call and where it gives up; the inductance loop puts the reversed test
      voltage there. Nothing ever goes to the beta axis. */
  lemma TestVoltagesLaw(k: Calib, c: Cfg, iu: real, undef: real, r: Run)
    requires Valid(k, c)
    ensures var n := Next(k, c, iu, undef);
            var q, v := Drives(k, n, c, r), k.testVoltage + (k.current - iu) / c.carrier as real;
      && (k.step == RLoop ==>
            && n.testVoltage == v
            && (-2.0 <= v <= 2.0 && k.loopCount < 2 * c.carrier ==> q.uab == AB(v, 0.0) && n.outputType == 2)
            && (-2.0 <= v <= 2.0 && k.loopCount >= 2 * c.carrier ==> q.uab == AB(0.0, 0.0))
            && (!(-2.0 <= v <= 2.0) ==> n.outputType == 0 && n.step == REnd && q.uab.beta == r.uab.beta))
      && (k.step == LLoop ==>
            q.uab == AB(-k.testVoltage, 0.0) && n.testVoltage == -k.testVoltage && n.outputType in {0, 2})
  {
    PerCarrier(k.ts, k.current - iu, c.carrier);
    hide Scale, HoldVoltage;
  }

  lemma PerCarrier(ts: real, x: real, carrier: int)
    requires carrier > 0 && ts == 1.0 / carrier as real
    ensures Scale(ts, x) == x / carrier as real
  {
  }

  /** The turning phases hold one and a half times the test voltage that the resistance loop ended
      with, on the d axis, at the phase set so far. */
  lemma HoldLaw(k: Calib, c: Cfg, iu: real, undef: real)
    requires k.step == REnd && k.current != 0.0
    ensures var n := Next(k, c, iu, undef);
            n.resistance * k.current == k.testVoltage && HoldVoltage(n) == 1.5 * k.testVoltage
  {
    assert (k.testVoltage / k.current) * k.current == k.testVoltage;
  }

  lemma TurningLaw(k: Calib, c: Cfg, iu: real, undef: real, r: Run)
    requires Valid(k, c) && (k.step == PpStart || k.step == PpLoop)
    ensures var n := Next(k, c, iu, undef);
            var q := Drives(k, n, c, r);
      && n.outputType == 1 && q.uqdRef == QD(1.5 * (k.current * k.resistance), 0.0) && q.drvAngle == n.phaseSet
      && n.phaseSet == (if k.step == PpStart then k.phaseSet else k.phaseSet + Trig.Pi / c.carrier as real)
      && n.resistance == k.resistance && n.current == k.current
  {
    PerCarrier(k.ts, Trig.Pi, c.carrier);
    assert Scale(PhaseVel, k.ts) == Scale(k.ts, Trig.Pi);
    hide Scale;
    HoldIs(k);
  }

  lemma HoldIs(k: Calib)
    ensures HoldVoltage(k) == 1.5 * (k.current * k.resistance)
  {
  }

  /** A started calibration uses the configured current and voltage. */
  lemma StartedLaw(k: Calib, c: Cfg)
    requires c.carrier > 0
    ensures var s := Started(k, c);
      && s.step == RStart && s.current == c.calibCurrent && s.voltage == c.calibVoltage
      && s.ts * c.carrier as real == 1.0
      && s.testVoltage == 0.0 && s.phaseSet == 0.0 && s.resistance == 0.0 && s.loopCount == 0
  {
  }
}
