/** States that outlive a stop: an idle motor whose bridge still drives, and a stop raised from
    idle. */
module AfterStop {
  import opened Protection
  import opened SpaceVector
  import opened MotorTypes
  import opened Handlers
  import opened Lifecycle
  import opened Outputs
  import opened Faults
  import Startup
  import Calibration
  import StopControl
  import SpeedSet

  // ----- Idle with driven registers -----------------------------------------------------

  predicate IdleDriving(m: Machine) {
    m.run.status == Idle && m.pwm.regs != Zeros
  }

  /** The two interrupts that write the registers. */
  predicate Writes(e: Event) {
    e.MainInterrupt? || e.AdcSpurious?
  }

  /** Whether a step ends idle over driven registers: exactly when the registers were driven and
      are not written, and the motor was idle and stays so, or the main loop meets a fault. */
  lemma IdleDrivingStep(c: Cfg, m: Machine, e: Event)
    requires Valid(c, m)
    ensures var n := Step(c, m, e);
            IdleDriving(n) <==>
              && m.pwm.regs != Zeros && !Writes(e) && n.run.status == Idle
              && (m.run.status == Idle || (e == MainLoop && m.run.fault != {}))
  {
    hide Valid, MainLoopStep, MainIsrStep, TickerStep, Guard, Encoded, IsFresh, VbusStep;
    match e
    case MainLoop => MainLoopLaw(c, m);
    case MainInterrupt(i) => MainIsrLaw(c, m, i);
    case Tick(t) => TickLaw(c, m, t);
    case _ => OtherLaw(c, m, e);
  }

  /** From a state that is not idle over driven registers, only one step leads to one: a call of the
      main loop that meets a fault while the registers are driven. */
  lemma IdleDrivingBegins(c: Cfg, m: Machine, e: Event)
    requires Valid(c, m) && !IdleDriving(m)
    ensures IdleDriving(Step(c, m, e)) <==> e == MainLoop && m.run.fault != {} && m.pwm.regs != Zeros
  {
    hide Valid, MainLoopStep, MainIsrStep, TickerStep, Guard, Encoded, Starts, IsFresh;
    IdleDrivingStep(c, m, e);
    if e == MainLoop {
      MainLoopLaw(c, m);
    }
  }

  /** Event `k` is a call of the main loop that meets a fault over driven registers, and since then
      nothing has written the registers or changed the status. */
  ghost predicate DrivenSince(c: Cfg, events: seq<Event>, k: nat)
    requires CfgOk(c) && k < |events|
  {
    && events[k] == MainLoop
    && Reached(c, events[..k]).run.fault != {} && Reached(c, events[..k]).pwm.regs != Zeros
    && (forall j :: k < j < |events| ==> !Writes(events[j]))
    && (forall j :: k < j <= |events| ==> Reached(c, events[..j]).run.status == Idle)
  }

  /** When "idle means zero registers" fails: a reached state is idle over driven registers exactly
      when some call of the main loop met a fault over driven registers, and neither a main nor a
      spurious interrupt nor a change of status has come since. */
  lemma {:induction false} IdleDrivingIff(c: Cfg, events: seq<Event>)
    requires CfgOk(c)
    ensures IdleDriving(Reached(c, events)) <==> exists k :: 0 <= k < |events| && DrivenSince(c, events, k)
    decreases |events|
  {
    hide Valid, Step, Boot, CfgOk, IdleDriving, DrivenSince, After;
    if events == [] {
      NoEvents(c, Boot(c));
      BootNotDriving(c);
    } else {
      var last := |events| - 1;
      var before, e := events[..last], events[last];
      assert events == before + [e];
      IdleDrivingIff(c, before);
      ReachedValid(c, before);
      ReachedSnoc(c, before, e);
      var m := Reached(c, before);
      DrivenHere(c, before, e);
      forall k | 0 <= k < last
        ensures DrivenSince(c, events, k) <==>
                  DrivenSince(c, before, k) && !Writes(e) && Reached(c, events).run.status == Idle
      {
        DrivenStays(c, before, e, k);
      }
      IdleDrivingStep(c, m, e);
      IdleDrivingLast(c, m, e);
      if exists k :: 0 <= k < last && DrivenSince(c, before, k) {
        var k :| 0 <= k < last && DrivenSince(c, before, k);
        assert DrivenSince(c, events, k) <==> !Writes(e) && Reached(c, events).run.status == Idle;
      }
    }
  }

  lemma BootNotDriving(c: Cfg)
    requires CfgOk(c)
    ensures !IdleDriving(Boot(c))
  {
  }

  lemma IdleDrivingLast(c: Cfg, m: Machine, e: Event)
    requires Valid(c, m)
    ensures var n := Step(c, m, e);
            IdleDriving(n) <==>
              || (IdleDriving(m) && !Writes(e) && n.run.status == Idle)
              || (e == MainLoop && m.run.fault != {} && m.pwm.regs != Zeros)
  {
    hide Valid, MainLoopStep, MainIsrStep, TickerStep, Guard, Encoded, Starts, IsFresh;
    IdleDrivingStep(c, m, e);
    if e == MainLoop {
      MainLoopLaw(c, m);
    }
  }

  /** The last event itself. */
  lemma DrivenHere(c: Cfg, before: seq<Event>, e: Event)
    requires CfgOk(c)
    ensures var m := Reached(c, before);
            DrivenSince(c, before + [e], |before|) <==> e == MainLoop && m.run.fault != {} && m.pwm.regs != Zeros
  {
    hide Valid, Step, Boot, CfgOk, After, MainLoopStep;
    var events := before + [e];
    assert events[..|before|] == before && events[..|events|] == events;
    if e == MainLoop && Reached(c, before).run.fault != {} {
      ReachedValid(c, before);
      ReachedSnoc(c, before, e);
      MainLoopLaw(c, Reached(c, before));
      MainLoopIsStep(c, Reached(c, before));
    }
  }

  /** One more event after. */
  lemma DrivenStays(c: Cfg, before: seq<Event>, e: Event, k: nat)
    requires CfgOk(c) && k < |before|
    ensures DrivenSince(c, before + [e], k) <==>
              DrivenSince(c, before, k) && !Writes(e) && Reached(c, before + [e]).run.status == Idle
  {
    hide Reached, CfgOk, Writes;
    var events := before + [e];
    assert events[..|events|] == events && before[..|before|] == before;
    assert forall j :: 0 <= j <= |before| ==> events[..j] == before[..j];
    assert events[|before|] == e;
    if DrivenSince(c, before, k) && !Writes(e) && Reached(c, events).run.status == Idle {
      forall j | k < j < |events|
        ensures !Writes(events[j])
      {
        assert j < |before| ==> events[j] == before[j];
      }
      forall j | k < j <= |events|
        ensures Reached(c, events[..j]).run.status == Idle
      {
        assert j <= |before| ==> events[..j] == before[..j];
      }
    }
    if DrivenSince(c, events, k) {
      forall j | k < j < |before|
        ensures !Writes(before[j])
      {
        assert events[j] == before[j];
      }
      forall j | k < j <= |before|
        ensures Reached(c, before[..j]).run.status == Idle
      {
        assert events[..j] == before[..j];
      }
    }
  }

  // ----- A run that ends so -------------------------------------------------------------

  function Repeat(e: Event, n: nat): (events: seq<Event>)
    ensures |events| == n
  {
    seq(n, _ => e)
  }

  lemma RepeatNext(e: Event, n: nat)
    ensures Repeat(e, 0) == [] && Repeat(e, n + 1) == Repeat(e, n) + [e]
  {
  }

  function Trues(n: nat): seq<bool> {
    seq(n, _ => true)
  }

  /** The reading lets every debounced bit be. */
  predicate Good(v: Vbus, volts: real) {
    !Bad(v, VdcOv, volts) && !Bad(v, VdcUv, volts) && !Bad(v, VdcAbnorm, volts)
  }

  /** A reading so low that it and every average from `avg` on count as under-voltage. */
  predicate Collapsed(v: Vbus, avg: real, volts: real) {
    volts <= v.uvpThreshold && avg - 0.8 * (avg - volts) <= v.uvpThreshold
  }

  lemma GoodReading(v: Vbus, volts: real)
    requires Good(v, volts)
    ensures VbusStep(Unfilled(v), {}, volts) == (Unfilled(v), {})
  {
    assert WithBit({}, VdcOv, false) == {} && WithBit({}, VdcUv, false) == {} && WithBit({}, VdcAbnorm, false) == {};
  }

  lemma CollapsedTick(c: Cfg, m: Machine, t: TickIn)
    requires Valid(c, m) && !m.run.enSpdTraj && Collapsed(m.vbus, m.run.avgVbus, m.run.vbus)
    ensures CfgOk(c)
    ensures var q := TickerStep(c, m, t);
      && Valid(c, q) && !q.run.enSpdTraj && Collapsed(q.vbus, q.run.avgVbus, q.run.vbus)
      && q.run.status == m.run.status && q.pwm == m.pwm && q.vbus.uvpThreshold == m.vbus.uvpThreshold
      && (q.vbus.uvp, VdcUv in q.run.fault) == ChannelStep(m.vbus.uvp, VdcUv in m.run.fault, true)
  {
    hide Valid, TickerStep, ChannelStep, CfgOk, VbusStep;
    ConfigOk(c, m);
    TickLaw(c, m, t);
    ChannelOfStep(m.vbus, m.run.fault, VdcUv, BusAverage(m.run));
  }

  /** Ticks alone, on a collapsed bus: nothing but the averages and the protections moves. */
  lemma {:induction false} CollapsedTicks(c: Cfg, m: Machine, t: TickIn, n: nat)
    requires Valid(c, m) && CfgOk(c) && !m.run.enSpdTraj && Collapsed(m.vbus, m.run.avgVbus, m.run.vbus)
    ensures var q := After(c, m, Repeat(Tick(t), n));
      && Valid(c, q) && !q.run.enSpdTraj && Collapsed(q.vbus, q.run.avgVbus, q.run.vbus)
      && q.run.status == m.run.status && q.pwm == m.pwm && q.vbus.uvpThreshold == m.vbus.uvpThreshold
      && (q.vbus.uvp, VdcUv in q.run.fault) == ChannelRun(m.vbus.uvp, VdcUv in m.run.fault, Trues(n))
  {
    hide Valid, Step, CfgOk, TickerStep, ChannelStep, Collapsed, Trues, Repeat;
    RepeatNext(Tick(t), if n == 0 then 0 else n - 1);
    if n == 0 {
      NoEvents(c, m);
      AllTrue(0);
    } else {
      CollapsedTicks(c, m, t, n - 1);
      var q := After(c, m, Repeat(Tick(t), n - 1));
      AfterSnoc(c, m, Repeat(Tick(t), n - 1), Tick(t));
      CollapsedTick(c, q, t);
      TickIsStep(c, q, t);
      TruesNext(n - 1);
      ChannelRunLast(m.vbus.uvp, VdcUv in m.run.fault, Trues(n - 1), true);
    }
  }

  /** An offset check and a tick, on a good bus. */
  lemma CheckAndTick(c: Cfg, volts: real, t: TickIn)
    requires CfgOk(c) && c.oc.threshold >= 0.0 && Good(c.vbus, 0.8 * volts)
    ensures var n := Reached(c, [AdcCheck(volts, false), Tick(t)]);
      && Valid(c, n) && Quiet(n) && n.run.tgtDir == Ccw && n.oc.threshold == c.oc.threshold
      && n.run.avgVbus == 0.8 * volts && n.vbus == Unfilled(c.vbus) && !n.run.enSpdTraj
  {
    hide Valid, Step, Boot, CfgOk, TickerStep, Over, VbusStep, Unfilled;
    BootValid(c);
    BootQuiet(c);
    var m := Boot(c);
    CheckedQuietly(c, m, volts);
    var n := Step(c, m, AdcCheck(volts, false));
    GoodReading(c.vbus, 0.8 * volts);
    TickLaw(c, n, t);
    assert [AdcCheck(volts, false), Tick(t)][..1] == [AdcCheck(volts, false)];
    OneStep(c, m, AdcCheck(volts, false));
    TickIsStep(c, n, t);
  }

  /** Modulated counts are never all zero: the shortest of the three leads by half the rest. */
  lemma ModulatedPositive(c: Cfg, r: Run, stray: Three<int>)
    requires CfgOk(c) && r.avgVbus > 0.0 && c.peak >= 10
    ensures Modulated(c, r, stray).u >= 1
  {
    var l := Wanted(c, r);
    RecordedSpan(r.uab.alpha, r.uab.beta, r.avgVbus, c.peak, Cap(c), c.root3);
    hide RecordedLevels;
    RiseLaw(l, l.u);
  }

  /** Such a run, for any debounce time: a good bus, a calibration that drives the bridge, a bus that
      collapses until the under-voltage bit is up, and then the main loop before any interrupt. */
  lemma IdleStillDriving(c: Cfg, volts: real, i1: MainIn, i2: MainIn, t: TickIn)
    requires CfgOk(c) && c.peak >= 10 && c.oc.threshold >= 0.0 && c.vbus.uvp.time >= 0
    requires !Over(i1.adc, c.oc.threshold) && !Over(i2.adc, c.oc.threshold) && i2.adc.u == c.calibCurrent
    requires volts > 0.0 && Good(c.vbus, 0.8 * volts) && Collapsed(c.vbus, 0.8 * volts, i2.vbus)
    ensures var n := Reached(c, [AdcCheck(volts, false), Tick(t)]
                                + [UsbCalibrate, MainInterrupt(i1), MainInterrupt(i2)]
                                + Repeat(Tick(t), c.vbus.uvp.time + 1) + [MainLoop]);
      && n.run.fault != {} && IdleDriving(n)
  {
    hide Valid, Step, Boot, CfgOk, TickerStep, MainLoopStep, Over, VbusStep, Modulated, Starts, IsFresh, Quiet, Wanted,
         After, ChannelRun, Repeat, Trues, Unfilled;
    CheckAndTick(c, volts, t);
    var a, b := [AdcCheck(volts, false), Tick(t)], [UsbCalibrate, MainInterrupt(i1), MainInterrupt(i2)];
    CalibrationDrivesSoon(c, Reached(c, a), i1, i2);
    AfterAppend(c, Boot(c), a, b);
    var m := Reached(c, a + b);
    ModulatedPositive(c, m.run, i2.stray);
    SameThreshold(c.vbus);
    var ticks := Repeat(Tick(t), c.vbus.uvp.time + 1);
    CollapsedTicks(c, m, t, c.vbus.uvp.time + 1);
    AllTrue(c.vbus.uvp.time + 1);
    ChannelDecides(m.vbus.uvp, VdcUv in m.run.fault, true, Trues(c.vbus.uvp.time + 1));
    AfterAppend(c, Boot(c), a + b, ticks);
    var q := Reached(c, a + b + ticks);
    MainLoopLaw(c, q);
    ReachedSnoc(c, a + b + ticks, MainLoop);
    MainLoopIsStep(c, q);
  }

  lemma TruesNext(n: nat)
    ensures Trues(n + 1) == Trues(n) + [true]
  {
  }

  lemma AllTrue(n: nat)
    ensures |Trues(n)| == n && forall k :: 0 <= k < n ==> Trues(n)[k]
  {
  }

  lemma SameThreshold(v: Vbus)
    ensures Unfilled(v).uvpThreshold == v.uvpThreshold && Unfilled(v).uvp == Channel(0, v.uvp.time)
  {
  }

  // ----- A stop raised from idle --------------------------------------------------------

  /** An interrupt without over-current keeps a running motor running. */
  lemma RunningInterrupt(c: Cfg, m: Machine, i: MainIn)
    requires Valid(c, m) && m.run.status == DrvRun && Quiet(m) && !Over(i.adc, m.oc.threshold)
    ensures CfgOk(c)
    ensures var n := Step(c, m, MainInterrupt(i));
      && Valid(c, n) && n.run.status == DrvRun && Quiet(n) && n.oc.threshold == m.oc.threshold
      && n.start == Startup.Next(m.start, c.observer) && n.cmd == m.cmd && n.run.tgtDir == m.run.tgtDir
      && (m.start.status == Finish ==> SameRamp(m, n))
      && (m.start.status != CLStart ==> n.traj == m.traj)
      && (m.start.status == CLStart ==>
            n.spdRegCnt == 0 &&
            (if IsHfi(c.observer) then n.traj == m.traj
             else c.observer != UseEncoder ==> n.traj.tgtWr == i.wr))
  {
    hide Valid, MainIsrStep, Guard, Encoded, Over, Startup.Next;
    ConfigOk(c, m);
    QuietGuard(m);
    MainIsrLaw(c, m, i);
    OverSwapped(MainIsrStep(c, m, i).run.iuvw, i.adc, m.oc.threshold);
  }

  /** The ramp that a start without an encoder hands over is below one step. */
  ghost predicate SlowStart(c: Cfg, m: Machine) {
    if m.start.status == Finish then m.spdRegCnt == 0 && m.traj.tgtWr < c.maxStep
    else m.traj.tgtWr == 0.0
  }

  /** Interrupts without over-current, from a fresh start. */
  lemma {:induction false} QuietStart(c: Cfg, m: Machine, i: MainIn, n: nat)
    requires Valid(c, m) && CfgOk(c) && c.observer != UseEncoder && c.maxStep > 0.0
    requires m.run.status == DrvRun && Quiet(m) && !Over(i.adc, m.oc.threshold)
    requires IsHfi(c.observer) || i.wr < c.maxStep
    requires m.start == Startup.Cleared(c) && SlowStart(c, m)
    ensures var q := After(c, m, Repeat(MainInterrupt(i), n));
      && Valid(c, q) && q.run.status == DrvRun && Quiet(q) && q.oc.threshold == m.oc.threshold
      && q.start == Startup.Calls(Startup.Cleared(c), c.observer, n) && SlowStart(c, q)
      && q.cmd == m.cmd && q.run.tgtDir == m.run.tgtDir
  {
    hide Valid, Step, Startup.Next, Over, Quiet, CfgOk, Startup.Cleared, Startup.Valid;
    RepeatNext(MainInterrupt(i), if n == 0 then 0 else n - 1);
    if n == 0 {
      NoEvents(c, m);
    } else {
      QuietStart(c, m, i, n - 1);
      var q := After(c, m, Repeat(MainInterrupt(i), n - 1));
      AfterSnoc(c, m, Repeat(MainInterrupt(i), n - 1), MainInterrupt(i));
      RunningInterrupt(c, q, i);
      StartValid(c, q);
      StatusAfter(q.start, c.observer);
    }
  }

  lemma StartValid(c: Cfg, m: Machine)
    requires Valid(c, m)
    ensures Startup.Valid(m.start, c.observer)
  {
  }

  /** A speed command and a call of the main loop, from a quiet state. */
  lemma Command(c: Cfg, m: Machine, rpm: int)
    requires Valid(c, m) && m.run.fault == {} && rpm != 0 && (m.run.status == Idle || m.run.status == DrvRun)
    requires !c.breakEnable
    ensures CfgOk(c)
    ensures var n := After(c, m, [UsbRpm(rpm), MainLoop]);
      && Valid(c, n) && n.run.status == DrvRun && n.run.fault == {}
      && n.oc == m.oc && n.run.iuvw == m.run.iuvw
      && n.run.cmdDir == (if rpm > 0 then Ccw else Cw)
      && (m.run.status == Idle ==> IsFresh(c, n))
      && (m.run.status == DrvRun ==> n.run.tgtDir == m.run.tgtDir && n.start == m.start && SameRamp(m, n))
  {
    hide Step, MainLoopStep, IsFresh, Startup.Valid, CfgOk;
    ConfigOk(c, m);
    var a := Step(c, m, UsbRpm(rpm));
    OtherLaw(c, m, UsbRpm(rpm));
    MainLoopLaw(c, a);
    assert [UsbRpm(rpm), MainLoop][..1] == [UsbRpm(rpm)];
    OneStep(c, m, UsbRpm(rpm));
    MainLoopIsStep(c, a);
  }

  lemma FreshMeans(c: Cfg, n: Machine)
    requires CfgOk(c) && IsFresh(c, n)
    ensures n.start == Startup.Cleared(c) && n.start.status == Initialize && n.run.tgtDir == n.run.cmdDir
    ensures n.traj.tgtWr == 0.0
  {
  }

  /** The state right after the spurious interrupt: idle, with a ramp that still runs down against
      its command. */
  ghost predicate StopPending(c: Cfg, m: Machine) {
    && m.run.status == Idle && m.run.enSpdTraj && SpeedSet.Reversing(m.run, c) && SpeedSet.StopsNow(m.traj)
  }

  /** A tick before the regulation is due changes none of that. */
  lemma EarlyTick(c: Cfg, m: Machine, t: TickIn)
    requires Valid(c, m) && StopPending(c, m) && m.spdRegCnt + 1 < Period(c)
    ensures var n := TickerStep(c, m, t); StopPending(c, n) && n.spdRegCnt == m.spdRegCnt + 1
  {
    hide BusCheck, SpeedSet.StopsNow, Startup.Valid, StopControl.Valid, Calibration.Going, CfgOk;
    BusLaw(m);
  }

  lemma {:induction false} EarlyTicks(c: Cfg, m: Machine, t: TickIn, n: nat)
    requires Valid(c, m) && CfgOk(c) && StopPending(c, m) && m.spdRegCnt + n < Period(c)
    ensures var q := After(c, m, Repeat(Tick(t), n));
            Valid(c, q) && StopPending(c, q) && q.spdRegCnt == m.spdRegCnt + n
  {
    hide Valid, Step, CfgOk, StopPending, TickerStep, Period;
    RepeatNext(Tick(t), if n == 0 then 0 else n - 1);
    if n == 0 {
      NoEvents(c, m);
    } else {
      EarlyTicks(c, m, t, n - 1);
      var q := After(c, m, Repeat(Tick(t), n - 1));
      AfterSnoc(c, m, Repeat(Tick(t), n - 1), Tick(t));
      EarlyTick(c, q, t);
      TickIsStep(c, q, t);
      StepValid(c, q, Tick(t));
    }
  }

  /** The trajectory outlives the stop, whatever the regulation period and for every observer but
      the encoder: started, reversed by command and stopped by a spurious interrupt, an idle motor
      is taken to DRV_STOP by the tick that completes the period, and by none before. */
  lemma StopRaisedFromIdle(c: Cfg, volts: real, i: MainIn, rpm: int, t: TickIn)
    requires CfgOk(c) && c.observer != UseEncoder && Startup.Climbs(Startup.Cleared(c), c.observer)
    requires !c.breakEnable && c.maxStep > 0.0 && rpm > 0 && (IsHfi(c.observer) || i.wr < c.maxStep)
    requires c.oc.threshold >= 0.0 && !Over(i.adc, c.oc.threshold)
    ensures Startup.Length(c) >= 0
    ensures var stopped := [AdcCheck(volts, false)] + [UsbRpm(rpm), MainLoop]
                           + Repeat(MainInterrupt(i), Startup.Length(c))
                           + [UsbRpm(-rpm), MainLoop] + [AdcSpurious];
      && Reached(c, stopped + Repeat(Tick(t), Period(c) - 1)).run.status == Idle
      && Reached(c, stopped + Repeat(Tick(t), Period(c))).run.status == DrvStop
  {
    hide Valid, Step, Boot, After, IsFresh, Over, Quiet, SlowStart, StopPending, Startup.Climbs, Startup.Length,
         Startup.Cleared, Startup.Calls, Repeat, Period;
    Startup.LengthPositive(c);
    var b := [AdcCheck(volts, false)] + [UsbRpm(rpm), MainLoop];
    FreshStart(c, volts, rpm);
    var starts := Repeat(MainInterrupt(i), Startup.Length(c));
    QuietStart(c, Reached(c, b), i, Startup.Length(c));
    Startup.StartsInLength(c, Startup.Length(c));
    AfterAppend(c, Boot(c), b, starts);
    var d := b + starts + [UsbRpm(-rpm), MainLoop];
    AfterAppend(c, Boot(c), b + starts, [UsbRpm(-rpm), MainLoop]);
    ReverseAndStop(c, Reached(c, b + starts), rpm);
    ReachedSnoc(c, d, AdcSpurious);
    StopTicks(c, d + [AdcSpurious], t);
  }

  /** Booted, checked and started by a command. */
  lemma FreshStart(c: Cfg, volts: real, rpm: int)
    requires CfgOk(c) && !c.breakEnable && rpm > 0 && c.oc.threshold >= 0.0
    ensures var m := Reached(c, [AdcCheck(volts, false)] + [UsbRpm(rpm), MainLoop]);
      && Valid(c, m) && m.run.status == DrvRun && Quiet(m) && m.oc.threshold == c.oc.threshold
      && m.start == Startup.Cleared(c) && SlowStart(c, m) && m.run.tgtDir == Ccw
  {
    hide Valid, Step, Boot, CfgOk, After, IsFresh, Over, Startup.Cleared;
    BootValid(c);
    BootQuiet(c);
    CheckedQuietly(c, Boot(c), volts);
    OneStep(c, Boot(c), AdcCheck(volts, false));
    var m := Reached(c, [AdcCheck(volts, false)]);
    Command(c, m, rpm);
    AfterAppend(c, Boot(c), [AdcCheck(volts, false)], [UsbRpm(rpm), MainLoop]);
    FreshMeans(c, Reached(c, [AdcCheck(volts, false)] + [UsbRpm(rpm), MainLoop]));
  }

  lemma ReverseAndStop(c: Cfg, m: Machine, rpm: int)
    requires Valid(c, m) && CfgOk(c) && m.run.status == DrvRun && Quiet(m) && m.start.status == Finish
    requires SlowStart(c, m) && m.run.tgtDir == Ccw && rpm > 0 && !c.breakEnable && c.maxStep > 0.0
    ensures var n := Step(c, After(c, m, [UsbRpm(-rpm), MainLoop]), AdcSpurious);
            Valid(c, n) && StopPending(c, n) && n.spdRegCnt == 0
  {
    hide Step, After, Startup.Valid, StopControl.Valid, Calibration.Going, SpeedSet.Coherent, CfgOk, IsFresh;
    Command(c, m, -rpm);
    OtherLaw(c, After(c, m, [UsbRpm(-rpm), MainLoop]), AdcSpurious);
  }

  lemma StopTicks(c: Cfg, stopped: seq<Event>, t: TickIn)
    requires CfgOk(c) && StopPending(c, Reached(c, stopped)) && Reached(c, stopped).spdRegCnt == 0
    ensures Period(c) >= 1
    ensures Reached(c, stopped + Repeat(Tick(t), Period(c) - 1)).run.status == Idle
    ensures Reached(c, stopped + Repeat(Tick(t), Period(c))).run.status == DrvStop
  {
    hide Valid, Step, Boot, CfgOk, After, Repeat, TickerStep, SpeedSet.Reversing, SpeedSet.StopsNow;
    var m, n := Reached(c, stopped), Period(c) - 1;
    ReachedValid(c, stopped);
    EarlyTicks(c, m, t, n);
    AfterAppend(c, Boot(c), stopped, Repeat(Tick(t), n));
    var q := Reached(c, stopped + Repeat(Tick(t), n));
    TickStopsIff(c, q, t);
    TickIsStep(c, q, t);
    RepeatNext(Tick(t), n);
    assert stopped + Repeat(Tick(t), Period(c)) == (stopped + Repeat(Tick(t), n)) + [Tick(t)];
    ReachedSnoc(c, stopped + Repeat(Tick(t), n), Tick(t));
  }
}
