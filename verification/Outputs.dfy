/** What the compare registers carry: the modulation of the demanded voltage at the averaged bus
    voltage, over every run of the handlers. */
module Outputs {
  import opened Numeric
  import opened Protection
  import opened SpaceVector
  import opened MotorTypes
  import opened Handlers
  import opened Lifecycle
  import Startup
  import Calibration
  import opened Transform
  import Encoder
  import Trig
  import StopControl

  // ----- One interrupt ------------------------------------------------------------------

  predicate Within(p: Three<int>, cap: int) {
    0 <= p.u <= cap && 0 <= p.v <= cap && 0 <= p.w <= cap
  }

  /** Nine tenths of the period. */
  function MostCounts(c: Cfg): int {
    9 * c.peak / 10
  }

  /** The levels of the vector that the modulation records for the demanded voltage. */
  function Wanted(c: Cfg, r: Run): Levels
    requires CfgOk(c) && r.avgVbus > 0.0
  {
    RecordedLevels(r.uab.alpha, r.uab.beta, r.avgVbus, c.peak, Cap(c), c.root3)
  }

  lemma ModulatedLaw(c: Cfg, r: Run, stray: Three<int>)
    requires CfgOk(c) && r.avgVbus > 0.0
    ensures var p := Modulated(c, r, stray); Follows(p, Wanted(c, r)) && Within(p, MostCounts(c))
  {
    ModulationLaw(r.uab.alpha, r.uab.beta, r.avgVbus, c.peak, Cap(c), c.root3);
    hide RecordedLevels, Modulation, Follows;
  }

  /** The condition is exact: while the averaged bus voltage is not positive the modulation yields
      any 16-bit counts. */
  lemma ModulatedIff(c: Cfg, r: Run)
    requires CfgOk(c)
    ensures r.avgVbus > 0.0 <==> forall stray :: Within(Modulated(c, r, stray), MostCounts(c))
  {
    hide Modulation, CfgOk, MostCounts;
    if r.avgVbus > 0.0 {
      forall stray
        ensures Within(Modulated(c, r, stray), MostCounts(c))
      {
        ModulatedLaw(c, r, stray);
      }
    } else {
      AnyCounts(c);
      assert !Within(Modulated(c, r, Three(0xffff, 0, 0)), MostCounts(c));
    }
  }

  /** The largest 16-bit count exceeds nine tenths of every 16-bit period. */
  lemma AnyCounts(c: Cfg)
    requires CfgOk(c)
    ensures MostCounts(c) < 0xffff && ToU16(0xffff) == 0xffff
  {
  }

  /** Swapping two legs twice undoes it. */
  lemma LegOrderTwice(d: Dir, p: Three<int>)
    ensures LegOrder(d, LegOrder(d, p)) == p
  {
  }

  /** What a main interrupt writes, by the status it ends in. */
  lemma InterruptOutput(c: Cfg, m: Machine, i: MainIn)
    requires Valid(c, m)
    ensures var n := MainIsrStep(c, m, i);
      match n.run.status
      case DrvRun =>
        && n.pwm.counts == (if n.run.enCurrentPid then Modulated(c, n.run, i.stray) else m.pwm.counts)
        && n.pwm.regs == LegOrder(n.run.tgtDir, n.pwm.counts)
      case Calibrate => n.pwm == CalibrationOutput(c, n, m.pwm, i.stray)
      case Idle => n.pwm.regs == Zeros && (n.pwm.counts == Zeros || n.pwm.counts == m.pwm.counts)
      case DrvStop => false
  {
    hide Guard, Ready, CalibrateIsr, DriveIsr, Startup.Next, Startup.Valid, StopControl.Valid, Encoded,
         Calibration.Next, Calibration.Going, Calibration.Left, Startup.AngleAfter, Startup.ReferenceAfter,
         Modulated, CfgOk;
    GuardLaw(m);
    ReadyLaw(c, m, i);
    BranchLaw(c, m, i);
    var s := Ready(c, m, i);
    match s.run.status {
      case Calibrate => CalibrateLaw(c, s, i);
      case DrvRun => RunLaw(c, s, i);
      case DrvStop => StopLaw(c, s, i);
      case Idle =>
    }
  }

  /** The interrupt modulates: it runs with the current loop on, or calibrates with the output on.
      All of this is known before its modulation. */
  predicate Modulates(c: Cfg, m: Machine, i: MainIn)
    requires CfgOk(c)
  {
    var s := Ready(c, m, i);
    if s.run.status == DrvRun then Detected(Startup.Next(m.start, c.observer).status)
    else s.run.status == Calibrate && Driving(Calibration.Next(m.calib, c, s.run.iuvw.u, i.undef))
  }

  /** What a main interrupt leaves in counts and registers, by whether it modulates. */
  lemma ModulatesOutput(c: Cfg, m: Machine, i: MainIn)
    requires Valid(c, m)
    ensures CfgOk(c)
    ensures var n := MainIsrStep(c, m, i);
      if Modulates(c, m, i) then
        && n.pwm.counts == Modulated(c, n.run, i.stray)
        && (n.pwm.regs == n.pwm.counts || n.pwm.regs == LegOrder(n.run.tgtDir, n.pwm.counts))
      else
        && (n.pwm.counts == m.pwm.counts || n.pwm.counts == Zeros)
        && (n.pwm.regs == Zeros || n.pwm.regs == LegOrder(n.run.tgtDir, m.pwm.counts))
  {
    hide Guard, Ready, CalibrateIsr, DriveIsr, Startup.Next, Startup.Valid, StopControl.Valid, Encoded,
         Calibration.Next, Calibration.Going, Calibration.Left, Startup.AngleAfter, Startup.ReferenceAfter,
         Modulated, CfgOk, LegOrder, Driving, Detected;
    ConfigOk(c, m);
    GuardLaw(m);
    ReadyLaw(c, m, i);
    BranchLaw(c, m, i);
    var s := Ready(c, m, i);
    match s.run.status {
      case Calibrate => CalibrateLaw(c, s, i);
      case DrvRun => RunLaw(c, s, i);
      case DrvStop => StopLaw(c, s, i);
      case Idle =>
    }
  }

  /** Of an interrupt's inputs, only the modulation reads the undefined counts. */
  lemma StrayUnread(c: Cfg, m: Machine, i: MainIn, p: Three<int>)
    requires CfgOk(c)
    ensures Modulates(c, m, i.(stray := p)) <==> Modulates(c, m, i)
  {
    hide Guard, Startup.Next, Calibration.Next, Clarke, CfgOk, Encoder.Step, Trig.Normal;
  }

  /** With a positive averaged bus voltage, a main interrupt that drives the bridge writes
      registers that, read in the order of the legs, follow all three line voltages of the
      recorded vector within two counts and stay within nine tenths of the period; one that does
      not drive it writes zeros, or repeats the counts from before the current loop was on. */
  lemma InterruptFollows(c: Cfg, m: Machine, i: MainIn)
    requires Valid(c, m) && m.run.avgVbus > 0.0
    ensures var n := MainIsrStep(c, m, i);
      && CfgOk(c) && n.run.avgVbus == m.run.avgVbus
      && (n.run.status == DrvRun && n.run.enCurrentPid ==>
            var p := LegOrder(n.run.tgtDir, n.pwm.regs); Follows(p, Wanted(c, n.run)) && Within(p, MostCounts(c)))
      && (n.run.status == DrvRun && !n.run.enCurrentPid ==> n.pwm.regs == LegOrder(n.run.tgtDir, m.pwm.counts))
      && (n.run.status == Calibrate ==>
            if Driving(n.calib) then Follows(n.pwm.regs, Wanted(c, n.run)) && Within(n.pwm.regs, MostCounts(c))
            else n.pwm.regs == Zeros)
      && (n.run.status == Idle ==> n.pwm.regs == Zeros)
  {
    hide MainIsrStep, Modulated, Valid, Wanted, Follows, Within, CfgOk, Guard, Encoded, LegOrder;
    ConfigOk(c, m);
    MainIsrLaw(c, m, i);
    InterruptOutput(c, m, i);
    var n := MainIsrStep(c, m, i);
    ModulatedLaw(c, n.run, i.stray);
    LegOrderTwice(n.run.tgtDir, n.pwm.counts);
  }

  // ----- Every run ----------------------------------------------------------------------

  predicate Capped(m: Machine, cap: int) {
    Within(m.pwm.regs, cap) && Within(m.pwm.counts, cap)
  }

  /** The condition is exact: whatever 16-bit counts an undefined conversion may yield, they cannot
      take registers or counts past nine tenths of the period exactly when the interrupt does not
      modulate or the averaged bus voltage is positive. */
  lemma InterruptCappedIff(c: Cfg, m: Machine, i: MainIn)
    requires Valid(c, m) && CfgOk(c) && Capped(m, MostCounts(c))
    ensures (forall p :: Capped(MainIsrStep(c, m, i.(stray := p)), MostCounts(c)))
            <==> !Modulates(c, m, i) || m.run.avgVbus > 0.0
  {
    hide MainIsrStep, Valid, CfgOk, Modulates, MostCounts, Capped;
    if !Modulates(c, m, i) || m.run.avgVbus > 0.0 {
      forall p
        ensures Capped(MainIsrStep(c, m, i.(stray := p)), MostCounts(c))
      {
        StrayUnread(c, m, i, p);
        SafeInterrupt(c, m, i.(stray := p));
      }
    } else {
      var p := Three(0xffff, 0, 0);
      StrayUnread(c, m, i, p);
      StrayInterrupt(c, m, i.(stray := p));
    }
  }

  lemma SafeInterrupt(c: Cfg, m: Machine, i: MainIn)
    requires Valid(c, m) && CfgOk(c) && Capped(m, MostCounts(c)) && (Modulates(c, m, i) ==> m.run.avgVbus > 0.0)
    ensures Capped(MainIsrStep(c, m, i), MostCounts(c))
  {
    hide MainIsrStep, Modulated, Valid, Follows, CfgOk, Guard, Encoded, Wanted, MostCounts, Modulates;
    MainIsrLaw(c, m, i);
    ModulatesOutput(c, m, i);
    MostCountsPositive(c);
    if Modulates(c, m, i) {
      ModulatedLaw(c, MainIsrStep(c, m, i).run, i.stray);
    }
  }

  lemma StrayInterrupt(c: Cfg, m: Machine, i: MainIn)
    requires Valid(c, m) && CfgOk(c) && Modulates(c, m, i) && m.run.avgVbus <= 0.0 && i.stray == Three(0xffff, 0, 0)
    ensures !Capped(MainIsrStep(c, m, i), MostCounts(c))
  {
    hide MainIsrStep, Valid, CfgOk, Guard, Encoded, MostCounts, Modulates, Modulation;
    MainIsrLaw(c, m, i);
    ModulatesOutput(c, m, i);
    AnyCounts(c);
  }

  /** If event `k` is an interrupt that modulates, it finds a positive averaged bus voltage. */
  ghost predicate FindsPower(c: Cfg, events: seq<Event>, k: nat)
    requires CfgOk(c) && k < |events|
  {
    var m := Reached(c, events[..k]);
    events[k].MainInterrupt? && Modulates(c, m, events[k].i) ==> m.run.avgVbus > 0.0
  }

  /** Lifted to runs: while every interrupt that modulates finds a positive average, whatever led
      there, no register and no count ever passes nine tenths of the period. */
  lemma {:induction false} StaysCapped(c: Cfg, events: seq<Event>)
    requires CfgOk(c)
    requires forall k :: 0 <= k < |events| ==> FindsPower(c, events, k)
    ensures Capped(Reached(c, events), MostCounts(c))
    decreases |events|
  {
    hide Valid, CfgOk, Step, Boot, MostCounts, Modulates, Capped, After;
    if events == [] {
      assert Reached(c, events) == Boot(c) by { NoEvents(c, Boot(c)); }
      BootPowered(c);
      BootCapped(c);
    } else {
      var last := |events| - 1;
      var before := events[..last];
      forall k | 0 <= k < |before|
        ensures FindsPower(c, before, k)
      {
        assert FindsPower(c, events, k);
        assert before[..k] == events[..k] && before[k] == events[k];
      }
      StaysCapped(c, before);
      assert FindsPower(c, events, last);
      ReachedValid(c, before);
      ReachedSnoc(c, before, events[last]);
      assert events == before + [events[last]];
      CappedStep(c, Reached(c, before), events[last]);
    }
  }

  lemma NoEvents(c: Cfg, m: Machine)
    requires CfgOk(c)
    ensures After(c, m, []) == m
  {
  }

  lemma BootCapped(c: Cfg)
    requires CfgOk(c)
    ensures Capped(Boot(c), MostCounts(c))
  {
  }

  lemma CappedStep(c: Cfg, m: Machine, e: Event)
    requires Valid(c, m) && CfgOk(c) && Capped(m, MostCounts(c))
    requires e.MainInterrupt? && Modulates(c, m, e.i) ==> m.run.avgVbus > 0.0
    ensures Capped(Step(c, m, e), MostCounts(c))
  {
    hide MainLoopStep, MainIsrStep, TickerStep, Valid, Guard, Encoded, Starts, IsFresh, MostCounts, CfgOk, Modulates;
    MostCountsPositive(c);
    match e
    case MainLoop => MainLoopLaw(c, m);
    case MainInterrupt(i) => SafeInterrupt(c, m, i);
    case Tick(t) => TickLaw(c, m, t);
    case _ => OtherLaw(c, m, e);
  }

  lemma MostCountsPositive(c: Cfg)
    requires CfgOk(c)
    ensures MostCounts(c) >= 0
  {
  }

  /** Something reads the bus: an offset check or a main interrupt. */
  predicate Samples(e: Event) {
    e.MainInterrupt? || e.AdcCheck?
  }

  predicate ReadsPositive(e: Event) {
    match e
    case MainInterrupt(i) => i.vbus > 0.0
    case AdcCheck(volts, _) => volts > 0.0
    case _ => true
  }

  /** Something has sampled the bus. */
  predicate BusSampled(events: seq<Event>) {
    events != [] && (Samples(events[|events| - 1]) || BusSampled(events[..|events| - 1]))
  }

  /** Some tick has averaged a sample of the bus. */
  predicate BusAveraged(events: seq<Event>) {
    events != [] &&
    var before := events[..|events| - 1];
    BusAveraged(before) || (events[|events| - 1].Tick? && BusSampled(before))
  }

  /** A command that leads to a driven bridge. */
  predicate Demands(e: Event) {
    e.UsbCalibrate? || NewCommand(e)
  }

  /** The bus reads positive, and no speed or calibration command arrives before a tick has
      averaged a sample of it. */
  predicate InOrder(events: seq<Event>) {
    events == [] ||
    var before, e := events[..|events| - 1], events[|events| - 1];
    InOrder(before) && (Demands(e) ==> BusAveraged(before)) && ReadsPositive(e)
  }

  /** Before the bus is averaged nothing drives the bridge; afterwards the average is positive. */
  ghost predicate Powered(c: Cfg, m: Machine, events: seq<Event>) {
    && Capped(m, MostCounts(c))
    && m.run.avgVbus >= 0.0 && m.run.vbus >= 0.0
    && (BusSampled(events) ==> m.run.vbus > 0.0)
    && (if BusAveraged(events) then m.run.avgVbus > 0.0 else Halted(m) && m.run.status != Calibrate)
  }

  lemma PoweredStep(c: Cfg, m: Machine, events: seq<Event>, e: Event)
    requires Valid(c, m) && Powered(c, m, events) && InOrder(events + [e])
    ensures Powered(c, Step(c, m, e), events + [e])
  {
    hide MainLoopStep, MainIsrStep, TickerStep, Valid, Guard, Encoded, Starts, IsFresh, MostCounts, CfgOk, NewCommand;
    ConfigOk(c, m);
    assert (events + [e])[..|events|] == events;
    MostCountsPositive(c);
    if !BusAveraged(events) {
      NoDemand(e);
      HaltedStep(c, m, e);
    }
    match e
    case MainLoop => MainLoopLaw(c, m);
    case MainInterrupt(i) =>
      MainIsrLaw(c, m, i);
      if BusAveraged(events) {
        SafeInterrupt(c, m, i);
      }
    case Tick(t) => TickLaw(c, m, t);
    case _ => OtherLaw(c, m, e);
  }

  lemma NoDemand(e: Event)
    ensures !Demands(e) ==> !NewCommand(e) && !e.UsbCalibrate?
  {
  }

  lemma {:induction false} StaysPowered(c: Cfg, events: seq<Event>)
    requires CfgOk(c) && InOrder(events)
    ensures Powered(c, Reached(c, events), events)
    decreases |events|
  {
    hide Valid, Step, CfgOk, Powered, Boot;
    if events == [] {
      BootPowered(c);
    } else {
      var last := |events| - 1;
      assert events == events[..last] + [events[last]];
      StaysPowered(c, events[..last]);
      ReachedValid(c, events[..last]);
      PoweredStep(c, Reached(c, events[..last]), events[..last], events[last]);
    }
  }

  lemma BootPowered(c: Cfg)
    requires CfgOk(c)
    ensures Powered(c, Boot(c), [])
  {
  }

  /** In every run whose bus reads positive and whose commands wait for the first averaged sample,
      no register and no count ever passes nine tenths of the period. */
  lemma RegistersWithinDuty(c: Cfg, events: seq<Event>)
    requires CfgOk(c) && InOrder(events)
    ensures Capped(Reached(c, events), MostCounts(c))
  {
    hide Reached, Capped, CfgOk, InOrder, MostCounts;
    StaysPowered(c, events);
  }

  // ----- A command before the first average ---------------------------------------------

  /** The bits and the counter of the over-current check stay down. */
  ghost predicate Quiet(m: Machine) {
    m.run.fault == {} && !Over(m.run.iuvw, m.oc.threshold)
  }

  lemma QuietGuard(m: Machine)
    requires Quiet(m)
    ensures Guard(m).run.fault == {} && Guard(m).oc.threshold == m.oc.threshold
  {
    GuardLaw(m);
    OcStepThreshold(m.oc);
    hide Guard, Over, OcStep;
    NoOtherBits(m.run.fault, Guard(m).run.fault);
  }

  lemma OcStepThreshold(o: Oc)
    ensures forall up, over :: OcStep(o, up, over).0.threshold == o.threshold
    ensures !OcStep(o, false, false).1
  {
  }

  lemma NoOtherBits(w: FaultWord, v: FaultWord)
    requires w == {} && OcPeak !in v && forall f :: f != OcPeak ==> (f in v <==> f in w)
    ensures v == {}
  {
    assert forall f :: f !in v;
  }

  /** The phase swap does not matter to the over-current check. */
  lemma OverSwapped(i: Currents, j: Currents, threshold: real)
    requires i == j || i == Currents(j.v, j.u, j.w)
    ensures Over(i, threshold) <==> Over(j, threshold)
  {
  }

  /** A calibrating interrupt without over-current. */
  lemma CalibratingInterrupt(c: Cfg, m: Machine, i: MainIn)
    requires Valid(c, m) && m.run.status == Calibrate && Quiet(m)
    requires !Over(i.adc, m.oc.threshold)
    ensures var n := MainIsrStep(c, m, i);
      && CfgOk(c) && Quiet(n)
      && n.calib == Calibration.Next(m.calib, c, n.run.iuvw.u, i.undef)
      && n.pwm == CalibrationOutput(c, n, m.pwm, i.stray)
      && n.run.status == (if n.calib.step == Null then Idle else Calibrate)
      && n.run.tgtDir == m.run.tgtDir && (m.run.tgtDir == Ccw ==> n.run.iuvw == i.adc)
      && n.run.avgVbus == m.run.avgVbus && n.run.vbus == i.vbus && n.vbus == m.vbus
      && n.oc.threshold == m.oc.threshold && n.run.enSpdTraj == m.run.enSpdTraj
  {
    hide Guard, CalibrateIsr, DriveIsr, Over, Calibration.Next, Calibration.Left, Calibration.Going,
         Modulated, Startup.Valid, StopControl.Valid, Encoded;
    GuardLaw(m);
    QuietGuard(m);
    ReadyLaw(c, m, i);
    BranchLaw(c, m, i);
    var s := Ready(c, m, i);
    OverSwapped(s.run.iuvw, i.adc, m.oc.threshold);
    CalibrateLaw(c, s, i);
  }

  /** The first two calls of a calibration: the second drives the bridge. */
  lemma FirstCalls(k: Calib, c: Cfg, iu1: real, undef1: real, undef2: real)
    requires CfgOk(c)
    ensures var k1 := Calibration.Next(Calibration.Started(k, c), c, iu1, undef1);
            var k2 := Calibration.Next(k1, c, c.calibCurrent, undef2);
            k1.step == RLoop && k2.step == RLoop && k2.outputType == 2
  {
    assert Scale(1.0 / c.carrier as real, 0.0) == 0.0;
  }

  /** Two quiet interrupts after a calibration command drive the bridge. */
  lemma CalibrationDrivesSoon(c: Cfg, m: Machine, i1: MainIn, i2: MainIn)
    requires Valid(c, m) && Quiet(m) && m.run.tgtDir == Ccw
    requires !Over(i1.adc, m.oc.threshold) && !Over(i2.adc, m.oc.threshold) && i2.adc.u == c.calibCurrent
    ensures var n := After(c, m, [UsbCalibrate, MainInterrupt(i1), MainInterrupt(i2)]);
      && Valid(c, n) && n.run.status == Calibrate && n.run.avgVbus == m.run.avgVbus && n.run.fault == {}
      && n.run.vbus == i2.vbus && n.vbus == m.vbus && n.cmd == m.cmd && n.run.enSpdTraj == m.run.enSpdTraj
      && n.pwm.regs == Modulated(c, n.run, i2.stray)
  {
    hide Valid, MainIsrStep, MainLoopStep, TickerStep, Modulated, Quiet, Calibration.Next, Calibration.Started, CfgOk,
         Over, Guard, Encoded;
    ConfigOk(c, m);
    var m1 := Step(c, m, UsbCalibrate);
    OtherLaw(c, m, UsbCalibrate);
    StartedQuietly(c, m);
    CalibratingInterrupt(c, m1, i1);
    MainIsrLaw(c, m1, i1);
    var m2 := MainIsrStep(c, m1, i1);
    FirstCalls(m.calib, c, m2.run.iuvw.u, i1.undef, i2.undef);
    CalibratingInterrupt(c, m2, i2);
    MainIsrLaw(c, m2, i2);
    ThreeSteps(c, m, UsbCalibrate, MainInterrupt(i1), MainInterrupt(i2));
  }

  lemma StartedQuietly(c: Cfg, m: Machine)
    requires CfgOk(c) && Quiet(m)
    ensures var n := Step(c, m, UsbCalibrate);
            Quiet(n) && n.calib == Calibration.Started(m.calib, c) && n.oc == m.oc && n.run.tgtDir == m.run.tgtDir
  {
  }

  lemma ThreeSteps(c: Cfg, m: Machine, a: Event, b: Event, d: Event)
    requires CfgOk(c)
    ensures After(c, m, [a, b, d]) == Step(c, Step(c, Step(c, m, a), b), d)
  {
    hide Step, CfgOk;
    assert [a, b, d][..2] == [a, b] && [a, b][..1] == [a] && [a][..0] == [];
    assert After(c, m, [a]) == Step(c, m, a);
    assert After(c, m, [a, b]) == Step(c, After(c, m, [a]), b);
  }

  /** The order is needed: a calibration command right after boot reaches a modulation whose
      averaged bus voltage is still zero, and the registers take whatever its conversion yields. */
  lemma CommandBeforeAverage(c: Cfg, volts: real, i1: MainIn, i2: MainIn)
    requires CfgOk(c) && c.oc.threshold >= 0.0
    requires !Over(i1.adc, c.oc.threshold) && !Over(i2.adc, c.oc.threshold) && i2.adc.u == c.calibCurrent
    ensures var n := Reached(c, [AdcCheck(volts, false)] + [UsbCalibrate, MainInterrupt(i1), MainInterrupt(i2)]);
            n.run.status == Calibrate && n.run.avgVbus == 0.0 && n.pwm.regs == Converted(i2.stray)
  {
    hide Valid, After, Boot, Step, CfgOk, Modulation, Over;
    BootValid(c);
    BootQuiet(c);
    CheckedQuietly(c, Boot(c), volts);
    CalibrationDrivesSoon(c, Step(c, Boot(c), AdcCheck(volts, false)), i1, i2);
    OneStep(c, Boot(c), AdcCheck(volts, false));
    AfterAppend(c, Boot(c), [AdcCheck(volts, false)], [UsbCalibrate, MainInterrupt(i1), MainInterrupt(i2)]);
  }

  lemma OneStep(c: Cfg, m: Machine, e: Event)
    requires CfgOk(c)
    ensures After(c, m, [e]) == Step(c, m, e)
  {
    hide Step, CfgOk;
    assert [e][..0] == [];
    NoEvents(c, m);
  }

  lemma {:induction false} AfterAppend(c: Cfg, m: Machine, a: seq<Event>, b: seq<Event>)
    requires CfgOk(c)
    ensures After(c, m, a + b) == After(c, After(c, m, a), b)
    decreases |b|
  {
    hide Step, CfgOk;
    if b == [] {
      assert a + b == a;
    } else {
      AfterAppend(c, m, a, b[..|b| - 1]);
      assert (a + b)[..|a + b| - 1] == a + b[..|b| - 1];
    }
  }

  /** An offset check that finds no bias. */
  lemma CheckedQuietly(c: Cfg, m: Machine, volts: real)
    requires Valid(c, m) && Quiet(m)
    ensures CfgOk(c)
    ensures var n := Step(c, m, AdcCheck(volts, false));
      && Valid(c, n) && Quiet(n) && n.oc == m.oc && n.run.tgtDir == m.run.tgtDir && n.run.vbus == volts
      && n.run.avgVbus == m.run.avgVbus && n.vbus == m.vbus && n.run.status == m.run.status && n.cmd == m.cmd
      && n.run.enSpdTraj == m.run.enSpdTraj
  {
    hide Valid, Over;
    ConfigOk(c, m);
    OtherLaw(c, m, AdcCheck(volts, false));
  }

  lemma BootQuiet(c: Cfg)
    requires CfgOk(c) && c.oc.threshold >= 0.0
    ensures var m := Boot(c);
      && Quiet(m) && m.run.tgtDir == Ccw && m.run.avgVbus == 0.0 && m.run.vbus == 0.0
      && m.oc.threshold == c.oc.threshold && m.vbus == Unfilled(c.vbus) && !m.run.enSpdTraj
  {
  }
}
