/** The handlers of motor_control.c, the main loop, the USB commands and the spurious ADC
    interrupt, each one atomic step on the whole motor. */
module Handlers {
  import opened Numeric
  import opened Protection
  import opened SpaceVector
  import opened PiCalc
  import opened MotorTypes
  import opened Transform
  import Trig
  import Encoder
  import Startup
  import Calibration
  import SpeedSet
  import StopControl

  // ----- `MotorSW_Init` -----------------------------------------------------------------

  /** The part that runs once, when the system becomes ready. */
  function FirstInit(m: Machine): Machine {
    if m.run.sysRdy then m else
      m.(cmd := Cmd(0, 0),
         run := m.run.(cmdWr := 0.0, cmdDir := Ccw, tgtDir := Ccw, status := Idle, fault := {}, sysRdy := true))
  }

  /** Start sequence, stop sequence, calibration, ramp, regulators and encoder afresh; bus, fault
      word, command, registers and timers as they were. */
  function Reinit(c: Cfg, m: Machine): Machine
    requires CfgOk(c)
  {
    m.(run := m.run.(enSpdPid := false, enSpdTraj := false, enCurrentPid := false, enBreak := false),
       calib := Calibration.Reset(c), traj := SpeedSet.Cleared(c),
       wrPid := c.wrPid, idPid := c.idPid, iqPid := c.iqPid,
       start := Startup.Cleared(c), stop := StopControl.Cleared,
       enc := if c.observer == UseEncoder then Encoder.Reset(m.enc) else m.enc)
  }

  function SwInit(c: Cfg, m: Machine): Machine
    requires CfgOk(c)
  {
    Reinit(c, FirstInit(m))
  }

  /** Afterwards the system is ready; only the first initialisation clears command, fault word, status
      and directions. */
  lemma SwInitLaw(c: Cfg, m: Machine)
    requires CfgOk(c)
    ensures var n := SwInit(c, m);
      && n.run.sysRdy && n.pwm == m.pwm && n.run.drvAngle == m.run.drvAngle && n.run.avgVbus == m.run.avgVbus
      && (if m.run.sysRdy then
            && n.cmd == m.cmd && n.run.fault == m.run.fault && n.run.status == m.run.status
            && n.run.cmdDir == m.run.cmdDir && n.run.tgtDir == m.run.tgtDir && n.run.cmdWr == m.run.cmdWr
          else
            && n.cmd == Cmd(0, 0) && n.run.fault == {} && n.run.status == Idle
            && n.run.cmdDir == n.run.tgtDir == Ccw && n.run.cmdWr == 0.0)
  {
  }

  method MotorSwInit(m: Motor)
    requires m.Valid()
    modifies m, m.wrPid, m.idPid, m.iqPid, m.enc
    ensures m.Value() == SwInit(m.cfg, old(m.Value()))
  {
    hide Reinit, FirstInit;
    InitOnce(m);
    InitAgain(m);
  }

  method InitOnce(m: Motor)
    modifies m`cmd, m`run
    ensures m.Value() == FirstInit(old(m.Value()))
  {
    if !m.run.sysRdy {
      m.cmd := Cmd(0, 0);
      m.run := m.run.(cmdWr := 0.0);
      m.run := m.run.(cmdDir := Ccw);
      m.run := m.run.(tgtDir := Ccw);
      m.run := m.run.(status := Idle);
      m.run := m.run.(fault := {});
      m.run := m.run.(sysRdy := true);
    }
  }

  method InitAgain(m: Motor)
    requires m.Valid()
    modifies m, m.wrPid, m.idPid, m.iqPid, m.enc
    ensures m.Value() == Reinit(m.cfg, old(m.Value()))
  {
    hide Startup.Cleared, Calibration.Reset, Encoder.Reset, SpeedSet.Cleared;
    if m.cfg.observer == UseEncoder {
      m.enc.Init();
    }
    DisableAll(m);
    InitSequences(m);
    InitRegulators(m);
  }

  method DisableAll(m: Motor)
    modifies m`run
    ensures m.run == old(m.run).(enSpdPid := false, enSpdTraj := false, enCurrentPid := false, enBreak := false)
  {
    m.run := m.run.(enSpdPid := false);
    m.run := m.run.(enSpdTraj := false);
    m.run := m.run.(enCurrentPid := false);
    m.run := m.run.(enBreak := false);
  }

  /** The initialisations in the order of the source; the regulators touch nothing of these. */
  method InitSequences(m: Motor)
    requires m.cfg.carrier > 0
    modifies m`calib, m`traj, m`start, m`stop
    ensures m.calib == Calibration.Reset(m.cfg) && m.traj == SpeedSet.Cleared(m.cfg)
    ensures m.start == Startup.Cleared(m.cfg) && m.stop == StopControl.Cleared
  {
    Calibration.InitCalibration(m);
    SpeedSet.InitSpdTraj(m);
    Startup.Init(m);
    m.stop := StopControl.Cleared;
  }

  method InitRegulators(m: Motor)
    requires m.Valid()
    modifies m.wrPid, m.idPid, m.iqPid
    ensures m.wrPid.Value() == m.cfg.wrPid && m.idPid.Value() == m.cfg.idPid && m.iqPid.Value() == m.cfg.iqPid
  {
    m.wrPid.Set(m.cfg.wrPid);
    m.idPid.Set(m.cfg.idPid);
    m.iqPid.Set(m.cfg.iqPid);
  }

  // ----- The main loop: `Speed_CmdSpdSet` -----------------------------------------------

  function Refused(m: Machine): Machine {
    m.(cmd := Cmd(0, 0), run := m.run.(cmdWr := 0.0, status := Idle))
  }

  function AcceptCommand(c: Cfg, m: Machine): Machine {
    m.(cmd := SpeedSet.Accepted(m.cmd, c.minRpm), run := SpeedSet.AcceptRun(m.cmd, m.run, c))
  }

  function Decide(c: Cfg, m: Machine): Machine
    requires CfgOk(c)
  {
    if m.cmd.preCmdRpm == 0 then
      if m.run.status == DrvRun then m.(run := m.run.(status := DrvStop)) else m
    else if m.run.status == Idle then
      var s := SwInit(c, m);
      s.(run := s.run.(tgtDir := s.run.cmdDir, status := DrvRun))
    else if m.run.status == DrvRun && m.run.cmdDir != m.run.tgtDir && c.breakEnable then
      m.(run := m.run.(status := DrvStop))
    else m
  }

  function MainLoopStep(c: Cfg, m: Machine): Machine
    requires CfgOk(c)
  {
    if m.run.fault != {} || !m.run.sysRdy then Refused(m) else Decide(c, AcceptCommand(c, m))
  }

  method CmdSpdSet(m: Motor)
    requires m.Valid()
    modifies m, m.wrPid, m.idPid, m.iqPid, m.enc
    ensures m.Value() == MainLoopStep(m.cfg, old(m.Value()))
  {
    hide SpeedSet.Accepted, SpeedSet.AcceptRun, SwInit;
    if m.run.fault != {} || !m.run.sysRdy {
      m.cmd := Cmd(0, 0);
      m.run := m.run.(cmdWr := 0.0);
      m.run := m.run.(status := Idle);
      return;
    }
    SpeedSet.Accept(m);
    if m.cmd.preCmdRpm == 0 {
      if m.run.status == DrvRun {
        m.run := m.run.(status := DrvStop);
      }
    } else if m.run.status == Idle {
      MotorSwInit(m);
      m.run := m.run.(tgtDir := m.run.cmdDir);
      m.run := m.run.(status := DrvRun);
    } else if m.run.status == DrvRun {
      if m.run.cmdDir != m.run.tgtDir {
        if m.cfg.breakEnable {
          m.run := m.run.(status := DrvStop);
        }
      }
    }
  }

  // ----- `Motor_MainIsrHandler` ---------------------------------------------------------

  /** What high-frequency injection contributes: nothing while it is disabled, otherwise the
      injected voltage with its direction and the base currents. */
  datatype Hfi = HfiOff | HfiOn(forward: bool, uin: real, idBase: real, iqBase: real)

  /** What one main interrupt takes from outside: the converted phase currents in channel order,
      the bus voltage and the encoder sample; angle and speed of an observer other than the
      encoder, and its stopping angle; high-frequency injection; and two values that stand for what
      C leaves undefined: the conversions to counts while the averaged bus voltage is not positive
      (`stray`) and the division by a zero calibration current (`undef`). */
  datatype MainIn = MainIn(
    adc: Currents, vbus: real, sample: Encoder.Sample, theta: real, wr: real, realWr: real,
    stopAngle: real, slow: bool, hfi: Hfi, stray: Three<int>, undef: real)

  /** `Prot_MotorOverCurrent` on the currents of the previous sample, and the stop on any fault. */
  function Guard(m: Machine): Machine {
    var (oc, up) := OcStep(m.oc, OcPeak in m.run.fault, Over(m.run.iuvw, m.oc.threshold));
    var m := m.(oc := oc, run := m.run.(fault := WithBit(m.run.fault, OcPeak, up)));
    if m.run.fault != {} then m.(run := Stopped(m.run), pwm := Off) else m
  }

  /** `Adc_Sample` and `CLARKE_Calc`: driven clockwise, the first two phases change places. */
  function Sampled(c: Cfg, r: Run, i: MainIn): Run
    requires c.root3 > 0.0
  {
    var iuvw := if r.tgtDir == Ccw then i.adc else Currents(i.adc.v, i.adc.u, i.adc.w);
    r.(vbus := i.vbus, iuvw := iuvw, iab := Clarke(iuvw.u, iuvw.v, c.root3))
  }

  /** `Encoder_Loop` and the normalisation of its phase, where an encoder is used. */
  function Encoded(c: Cfg, m: Machine, i: MainIn): Encoder.Enc {
    if c.observer == UseEncoder then
      var e := Encoder.Step(m.enc, c.encoder, i.sample, m.run.tgtDir == Ccw);
      e.(phase := Trig.Normal(e.phase))
    else m.enc
  }

  function Sn(c: Cfg, angle: real): real
    requires CfgOk(c)
  {
    Trig.SinF32(c.table, angle)
  }

  function Cs(c: Cfg, angle: real): real
    requires CfgOk(c)
  {
    Trig.CosF32(c.table, angle)
  }

  /** The duty cap of `SVPWM_Init`. */
  function Cap(c: Cfg): (cap: real)
    requires CfgOk(c)
    ensures 0.0 <= cap <= 0.8 * c.peak as real
  {
    DutyCap(c.peak, c.maxDuty)
  }

  /** Any three 16-bit counts. */
  function Converted(p: Three<int>): Three<int> {
    Three(ToU16(p.u), ToU16(p.v), ToU16(p.w))
  }

  /** `SVPWM_Calc` on the demanded voltage and the averaged bus voltage. While that is zero the
      division is undefined, and while it is negative the conversion of the negative times is: the
      counts are then any 16-bit values. */
  function Modulated(c: Cfg, r: Run, stray: Three<int>): Three<int>
    requires CfgOk(c)
  {
    if r.avgVbus > 0.0 then Modulation(r.uab.alpha, r.uab.beta, r.avgVbus, c.peak, Cap(c), c.root3)
    else Converted(stray)
  }

  /** `IPARK_Calc` at the drive angle. */
  function Rotated(c: Cfg, r: Run): Run
    requires CfgOk(c)
  {
    r.(uab := Ipark(r.uqdRef, Sn(c, r.drvAngle), Cs(c, r.drvAngle)))
  }

  function CalibrateIsr(c: Cfg, m: Machine, i: MainIn): Machine
    requires CfgOk(c)
  {
    var k := Calibration.Next(m.calib, c, m.run.iuvw.u, i.undef);
    var m := m.(calib := k, run := Calibration.Drives(m.calib, k, c, m.run));
    var m := if k.outputType == 1 then m.(run := Rotated(c, m.run)) else m;
    if k.outputType == 1 || k.outputType == 2 then
      var counts := Modulated(c, m.run, i.stray);
      m.(pwm := m.pwm.(counts := counts, regs := counts))
    else m.(pwm := m.pwm.(regs := Zeros))
  }

  /** One call of the start sequence. */
  function Starting(c: Cfg, m: Machine, i: MainIn): Machine {
    var n := Startup.Next(m.start, c.observer);
    var theta := if c.observer == UseEncoder then m.enc.phase else i.theta;
    var wr := if c.observer == UseEncoder then m.enc.vel else i.wr;
    m.(start := n, run := Startup.Drives(m.start, n, c.observer, m.run, theta),
       traj := Startup.Handover(m.start, c.observer, m.traj, m.run, wr),
       pwm := if m.start.status == BscCharge then m.pwm.(enabled := true) else m.pwm,
       enc := m.enc.(offset := Startup.OffsetAfter(m.start, n, m.enc.offset, m.enc.phase)),
       spdRegCnt := if m.start.status == CLStart then 0 else m.spdRegCnt)
  }

  /** One call of the stop sequence. */
  function Stopping(c: Cfg, m: Machine, i: MainIn): Machine {
    var started := m.start.status == Finish;
    var angle := if c.observer == UseEncoder then m.enc.phase else i.stopAngle;
    m.(stop := StopControl.Next(m.stop, started, i.slow),
       run := StopControl.Drives(m.stop, started, i.slow, m.run, angle),
       pwm := if StopControl.Stops(m.stop, started, i.slow) then Off else m.pwm)
  }

  /** The start sequence while running and the stop sequence otherwise. */
  function Sequence(c: Cfg, m: Machine, i: MainIn): Machine {
    if m.run.status == DrvRun then Starting(c, m, i) else Stopping(c, m, i)
  }

  /** `PARK_Calc` at the drive angle. */
  function Parked(c: Cfg, r: Run): Run
    requires CfgOk(c)
  {
    r.(iqd := Park(r.iab, Sn(c, r.drvAngle), Cs(c, r.drvAngle)))
  }

  function Feedback(r: Run, hfi: Hfi): QD {
    if hfi.HfiOn? then QD(hfi.idBase, hfi.iqBase) else r.iqd
  }

  /** The voltage demanded from the outputs of the two regulators. */
  function Demand(c: Cfg, r: Run, hfi: Hfi, ud: real, uq: real): QD {
    match hfi
    case HfiOn(forward, uin, _, _) => QD(if forward then uin + ud else -uin + ud, uq)
    case HfiOff =>
      if c.feedforward then
        QD(ud + Scale(-1.0 * r.realTimeWr, Scale(c.ls, r.iqd.q)),
           uq + (Scale(r.realTimeWr, Scale(c.ls, r.iqd.d)) + Scale(r.realTimeWr, c.lambdaF)))
      else QD(ud, uq)
  }

  /** The two current regulators and the demand they make. */
  function RegulateCurrents(c: Cfg, m: Machine, hfi: Hfi): Machine {
    var fbk := Feedback(m.run, hfi);
    var iq := IncStep(m.iqPid, m.run.iqdRef.q, fbk.q);
    var id := IncStep(m.idPid, m.run.iqdRef.d, fbk.d);
    m.(iqPid := iq, idPid := id, run := m.run.(uqdRef := Demand(c, m.run, hfi, id.output, iq.output)))
  }

  function Turned(c: Cfg, m: Machine, stray: Three<int>): Machine
    requires CfgOk(c)
  {
    var r := Rotated(c, m.run);
    m.(run := r, pwm := m.pwm.(counts := Modulated(c, r, stray)))
  }

  function Regulate(c: Cfg, m: Machine, i: MainIn): Machine
    requires CfgOk(c)
  {
    var m := m.(run := Parked(c, m.run));
    if m.run.enCurrentPid then Turned(c, RegulateCurrents(c, m, i.hfi), i.stray)
    else if m.start.status == VfDrive then Turned(c, m, i.stray)
    else m
  }

  /** Driven clockwise, the first two legs change places too. */
  function LegOrder(d: Dir, counts: Three<int>): Three<int> {
    if d == Ccw then counts else Three(counts.v, counts.u, counts.w)
  }

  function Output(m: Machine): Machine {
    m.(pwm := m.pwm.(regs := LegOrder(m.run.tgtDir, m.pwm.counts)))
  }

  function DriveIsr(c: Cfg, m: Machine, i: MainIn): Machine
    requires CfgOk(c)
  {
    var wr := if c.observer == UseEncoder then m.enc.phaseVel else i.realWr;
    Output(Regulate(c, Sequence(c, m.(run := m.run.(realTimeWr := wr)), i), i))
  }

  function MainIsrStep(c: Cfg, m: Machine, i: MainIn): Machine
    requires CfgOk(c)
  {
    var m := Guard(m);
    var m := m.(run := Sampled(c, m.run, i));
    var m := m.(enc := Encoded(c, m, i));
    match m.run.status
    case Calibrate => CalibrateIsr(c, m, i)
    case Idle => m.(run := Stopped(m.run), pwm := Off)
    case _ => DriveIsr(c, m, i)
  }

  method MainIsr(m: Motor, i: MainIn)
    requires m.Valid()
    modifies m.Repr()
    ensures m.Valid() && m.Value() == MainIsrStep(m.cfg, old(m.Value()), i)
  {
    hide Guard, Sampled, Encoded, CalibrateIsr, DriveIsr, Stopped, CfgOk;
    CheckOverCurrent(m);
    Sample(m, i);
    ReadEncoder(m, i);
    if m.run.status == Calibrate {
      CalibrateHandler(m, i);
    } else if m.run.status != Idle {
      DriveHandler(m, i);
    } else {
      FastStop(m);
    }
  }

  method CheckOverCurrent(m: Motor)
    modifies m`run, m`pwm, m.oc
    ensures m.Value() == Guard(old(m.Value()))
  {
    hide Stopped, OcStep, Over, WithBit;
    var fault := m.oc.MotorOverCurrent(m.run.iuvw, m.run.fault);
    m.run := m.run.(fault := fault);
    if m.run.fault != {} {
      FastStop(m);
    }
  }

  method Sample(m: Motor, i: MainIn)
    requires m.Valid()
    modifies m`run
    ensures CfgOk(m.cfg) && m.run == Sampled(m.cfg, old(m.run), i)
  {
    hide Clarke;
    m.run := m.run.(vbus := i.vbus);
    if m.run.tgtDir == Ccw {
      m.run := m.run.(iuvw := i.adc);
    } else {
      m.run := m.run.(iuvw := Currents(i.adc.v, i.adc.u, i.adc.w));
    }
    m.run := m.run.(iab := Clarke(m.run.iuvw.u, m.run.iuvw.v, m.cfg.root3));
  }

  method ReadEncoder(m: Motor, i: MainIn)
    requires m.Valid()
    modifies m.enc
    ensures m.enc.Value() == Encoded(m.cfg, old(m.Value()), i)
  {
    hide Trig.Normal, Encoder.Step;
    if m.cfg.observer == UseEncoder {
      m.enc.Loop(i.sample, m.run.tgtDir == Ccw);
      var phase := Trig.NormAngleRad(m.enc.phase);
      m.enc.phase := phase;
    }
  }

  /** `SVPWM_Calc` into the counts. */
  method Modulate(m: Motor, stray: Three<int>)
    requires m.Valid()
    modifies m`pwm, m.svpwm
    ensures m.Valid() && m.pwm == old(m.pwm).(counts := Modulated(m.cfg, m.run, stray))
  {
    hide Modulation, RecordedLevels, VoltageLevels, Follows, Span, OnCounts, Shrink, Lo, Mid, Hi, Orders, Ratio;
    if m.run.avgVbus > 0.0 {
      var cap := Cap(m.cfg);
      m.svpwm.Calc(m.run.uab.alpha, m.run.uab.beta, m.run.avgVbus, m.cfg.root3);
      m.pwm := m.pwm.(counts := Three(m.svpwm.uOn, m.svpwm.vOn, m.svpwm.wOn));
    } else {
      m.pwm := m.pwm.(counts := Converted(stray));
    }
  }

  method Rotate(m: Motor)
    requires m.Valid()
    modifies m`run
    ensures m.run == Rotated(m.cfg, old(m.run))
  {
    hide Trig.SinF32, Trig.CosF32, Ipark;
    var sn, cs := Trig.SinF32(m.cfg.table, m.run.drvAngle), Trig.CosF32(m.cfg.table, m.run.drvAngle);
    m.run := m.run.(uab := Ipark(m.run.uqdRef, sn, cs));
  }

  method CalibrateHandler(m: Motor, i: MainIn)
    requires m.Valid()
    modifies m`run, m`calib, m`pwm, m.svpwm
    ensures m.Valid() && m.Value() == CalibrateIsr(m.cfg, old(m.Value()), i)
  {
    hide Calibration.Next, Calibration.Drives, Rotated, Modulated, CfgOk;
    Calibration.Loop(m, i.undef);
    if m.calib.outputType == 1 {
      Rotate(m);
      Modulate(m, i.stray);
      m.pwm := m.pwm.(regs := m.pwm.counts);
    } else if m.calib.outputType == 2 {
      Modulate(m, i.stray);
      m.pwm := m.pwm.(regs := m.pwm.counts);
    } else {
      m.pwm := m.pwm.(regs := Zeros);
    }
  }

  method DriveHandler(m: Motor, i: MainIn)
    requires m.Valid()
    modifies m, m.idPid, m.iqPid, m.enc, m.svpwm
    ensures m.Valid() && m.Value() == DriveIsr(m.cfg, old(m.Value()), i)
  {
    hide Sequence, Regulate, CfgOk;
    if m.cfg.observer == UseEncoder {
      m.run := m.run.(realTimeWr := m.enc.phaseVel);
    } else {
      m.run := m.run.(realTimeWr := i.realWr);
    }
    RunSequence(m, i);
    RunRegulators(m, i);
    if m.run.tgtDir == Ccw {
      m.pwm := m.pwm.(regs := m.pwm.counts);
    } else {
      m.pwm := m.pwm.(regs := Three(m.pwm.counts.v, m.pwm.counts.u, m.pwm.counts.w));
    }
  }

  method RunSequence(m: Motor, i: MainIn)
    modifies m, m.enc`offset
    ensures m.Value() == Sequence(m.cfg, old(m.Value()), i)
  {
    hide Starting, Stopping;
    if m.run.status == DrvRun {
      RunStart(m, i);
    } else {
      RunStop(m, i);
    }
  }

  method RunStart(m: Motor, i: MainIn)
    modifies m`start, m`run, m`pwm, m`traj, m`spdRegCnt, m.enc`offset
    ensures m.Value() == Starting(m.cfg, old(m.Value()), i)
  {
    hide Startup.Next, Startup.Drives, Startup.Handover, Startup.OffsetAfter;
    ControlStart(m, i);
  }

  method ControlStart(m: Motor, i: MainIn)
    modifies m`start, m`run, m`pwm, m`traj, m`spdRegCnt, m.enc`offset
    ensures var theta := if m.cfg.observer == UseEncoder then m.enc.phase else i.theta;
            var wr := if m.cfg.observer == UseEncoder then m.enc.vel else i.wr;
      && m.start == Startup.Next(old(m.start), m.cfg.observer)
      && m.run == Startup.Drives(old(m.start), m.start, m.cfg.observer, old(m.run), theta)
      && m.traj == Startup.Handover(old(m.start), m.cfg.observer, old(m.traj), old(m.run), wr)
    ensures m.enc.Value() ==
              old(m.enc.Value()).(offset := Startup.OffsetAfter(old(m.start), m.start, old(m.enc.offset), m.enc.phase))
    ensures m.pwm == if old(m.start).status == BscCharge then old(m.pwm).(enabled := true) else old(m.pwm)
    ensures m.spdRegCnt == if old(m.start).status == CLStart then 0 else old(m.spdRegCnt)
  {
    hide Startup.Next, Startup.Drives, Startup.Handover, Startup.OffsetAfter;
    var theta := if m.cfg.observer == UseEncoder then m.enc.phase else i.theta;
    var wr := if m.cfg.observer == UseEncoder then m.enc.vel else i.wr;
    Startup.Control(m, theta, wr);
    assert m.enc.Value() == old(m.enc.Value()).(offset := m.enc.offset);
  }

  method RunStop(m: Motor, i: MainIn)
    modifies m`stop, m`run, m`pwm
    ensures m.Value() == Stopping(m.cfg, old(m.Value()), i)
  {
    hide StopControl.Next, StopControl.Drives, StopControl.Stops;
    StopControl.Control(m, if m.cfg.observer == UseEncoder then m.enc.phase else i.stopAngle, i.slow);
  }

  method RunRegulators(m: Motor, i: MainIn)
    requires m.Valid()
    modifies m`run, m`pwm, m.idPid, m.iqPid, m.svpwm
    ensures m.Valid() && m.Value() == Regulate(m.cfg, old(m.Value()), i)
  {
    hide Rotated, Modulated, Parked, RegulateCurrents, CfgOk;
    ParkCurrents(m);
    if m.run.enCurrentPid {
      RunCurrentRegulators(m, i.hfi);
      Rotate(m);
      Modulate(m, i.stray);
    } else if m.start.status == VfDrive {
      Rotate(m);
      Modulate(m, i.stray);
    }
  }

  method ParkCurrents(m: Motor)
    requires m.Valid()
    modifies m`run
    ensures m.run == Parked(m.cfg, old(m.run))
  {
    hide Trig.SinF32, Trig.CosF32, Park;
    var sn, cs := Trig.SinF32(m.cfg.table, m.run.drvAngle), Trig.CosF32(m.cfg.table, m.run.drvAngle);
    m.run := m.run.(iqd := Park(m.run.iab, sn, cs));
  }

  method RunCurrentRegulators(m: Motor, hfi: Hfi)
    requires m.Valid()
    modifies m`run, m.idPid, m.iqPid
    ensures m.Value() == RegulateCurrents(m.cfg, old(m.Value()), hfi)
  {
    hide IncStep, Demand;
    var fbk := Feedback(m.run, hfi);
    var uq := m.iqPid.IncPid(m.run.iqdRef.q, fbk.q);
    var ud := m.idPid.IncPid(m.run.iqdRef.d, fbk.d);
    DemandVoltage(m, hfi, ud, uq);
  }

  method DemandVoltage(m: Motor, hfi: Hfi, ud: real, uq: real)
    modifies m`run
    ensures m.run == old(m.run).(uqdRef := Demand(m.cfg, old(m.run), hfi, ud, uq))
  {
    hide Scale;
    m.run := m.run.(uqdRef := QD(m.run.uqdRef.d, uq));
    match hfi {
      case HfiOn(forward, uin, _, _) =>
        m.run := m.run.(uqdRef := QD(if forward then uin + ud else -uin + ud, m.run.uqdRef.q));
      case HfiOff =>
        m.run := m.run.(uqdRef := QD(ud, m.run.uqdRef.q));
        if m.cfg.feedforward {
          var r := m.run;
          var d := Scale(-1.0 * r.realTimeWr, Scale(m.cfg.ls, r.iqd.q));
          var q := Scale(r.realTimeWr, Scale(m.cfg.ls, r.iqd.d)) + Scale(r.realTimeWr, m.cfg.lambdaF);
          m.run := m.run.(uqdRef := QD(m.run.uqdRef.d + d, m.run.uqdRef.q + q));
        }
    }
  }

  // ----- `Motor_SysTickerIsrHandler` ----------------------------------------------------

  /** The voltage limits that `Motor_CVLimit` computes for the two current regulators. */
  datatype TickIn = TickIn(idMax: real, iqMax: real)

  function Limited(p: Regulator, max: real): Regulator {
    p.(outMax := max, outMin := -max)
  }

  function BusCheck(m: Machine): Machine {
    var avg := m.run.avgVbus - 0.8 * (m.run.avgVbus - m.run.vbus);
    var (v, fault) := VbusStep(m.vbus, m.run.fault, avg);
    m.(vbus := v, run := m.run.(avgVbus := avg, fault := fault))
  }

  function RampSpeed(c: Cfg, m: Machine): Machine {
    var reversing := SpeedSet.Reversing(m.run, c);
    var t := if reversing then SpeedSet.SlowDown(m.traj) else SpeedSet.Follow(m.traj, m.run.cmdWr);
    m.(traj := t,
       run := m.run.(tgtWr := t.tgtWr,
                     status := if reversing && SpeedSet.StopsNow(m.traj) then DrvStop else m.run.status))
  }

  function RegulateSpeed(m: Machine): Machine {
    var w := PosStep(m.wrPid, m.run.tgtWr, m.run.realTimeWr);
    m.(wrPid := w, run := m.run.(iqdRef := QD(0.0, w.output)))
  }

  function TickerStep(c: Cfg, m: Machine, t: TickIn): Machine {
    var m := BusCheck(m);
    var m := m.(idPid := Limited(m.idPid, t.idMax), iqPid := Limited(m.iqPid, t.iqMax), spdRegCnt := m.spdRegCnt + 1);
    if m.spdRegCnt < c.spdRegTime then m else
      var m := m.(spdRegCnt := 0);
      var m := if m.run.enSpdTraj then RampSpeed(c, m) else m;
      if m.run.enSpdPid then RegulateSpeed(m) else m
  }

  method Ticker(m: Motor, t: TickIn)
    requires m.Valid()
    modifies m.Repr()
    ensures m.Valid() && m.Value() == TickerStep(m.cfg, old(m.Value()), t)
  {
    hide BusCheck, RampSpeed, RegulateSpeed;
    m.spdRegCnt := m.spdRegCnt + 1;
    CountKept(old(m.Value()), m.spdRegCnt);
    CheckBus(m);
    SetLimits(m, t);
    if m.spdRegCnt >= m.cfg.spdRegTime {
      m.spdRegCnt := 0;
      if m.run.enSpdTraj {
        Ramp(m);
      }
      if m.run.enSpdPid {
        RunSpeedRegulator(m);
      }
    }
  }

  lemma CountKept(m: Machine, n: int)
    ensures BusCheck(m.(spdRegCnt := n)) == BusCheck(m).(spdRegCnt := n) && BusCheck(m).spdRegCnt == m.spdRegCnt
  {
    hide VbusStep;
  }

  method CheckBus(m: Motor)
    modifies m`run, m.vbus
    ensures m.Value() == BusCheck(old(m.Value()))
  {
    hide VbusStep;
    m.run := m.run.(avgVbus := m.run.avgVbus - 0.8 * (m.run.avgVbus - m.run.vbus));
    var fault := m.vbus.MonitorVbus(m.run.avgVbus, m.run.fault);
    m.run := m.run.(fault := fault);
  }

  method SetLimits(m: Motor, t: TickIn)
    requires m.Valid()
    modifies m.idPid, m.iqPid
    ensures m.idPid.Value() == Limited(old(m.idPid.Value()), t.idMax)
    ensures m.iqPid.Value() == Limited(old(m.iqPid.Value()), t.iqMax)
  {
    m.idPid.outMax, m.idPid.outMin := t.idMax, -t.idMax;
    m.iqPid.outMax, m.iqPid.outMin := t.iqMax, -t.iqMax;
  }

  method Ramp(m: Motor)
    modifies m`run, m`traj
    ensures m.Value() == RampSpeed(m.cfg, old(m.Value()))
  {
    hide SpeedSet.SlowDown, SpeedSet.Follow, SpeedSet.StopsNow;
    var wr := SpeedSet.TgtSpdTraj(m, m.run.cmdWr);
    m.run := m.run.(tgtWr := wr);
  }

  method RunSpeedRegulator(m: Motor)
    requires m.Valid()
    modifies m`run, m.wrPid
    ensures m.Value() == RegulateSpeed(old(m.Value()))
  {
    hide PosStep;
    var q := m.wrPid.PosPid(m.run.tgtWr, m.run.realTimeWr);
    m.run := m.run.(iqdRef := QD(m.run.iqdRef.d, q));
    m.run := m.run.(iqdRef := QD(0.0, m.run.iqdRef.q));
  }

  // ----- Commands and the spurious interrupt --------------------------------------------

  /** One handler call. `AdcCheck` is a call of `Adc_CheckOffset`, which reads the bus voltage and
      in the end may find an offset biased. The source makes these calls before the first main
      interrupt and the first tick; here they may come at any time, so that every statement about
      all runs covers the source's. */
  datatype Event = MainLoop | MainInterrupt(i: MainIn) | Tick(t: TickIn)
                 | UsbRpm(rpm: int) | UsbNegate | UsbCalibrate | AdcSpurious | AdcCheck(volts: real, biased: bool)

  function Spurious(m: Machine): Machine {
    m.(run := Stopped(m.run).(fault := m.run.fault + {UndefInt}), pwm := Off)
  }

  function OffsetChecked(r: Run, volts: real, biased: bool): Run {
    r.(vbus := volts, fault := if biased then r.fault + {AdOffset} else r.fault)
  }

  function Step(c: Cfg, m: Machine, e: Event): Machine
    requires CfgOk(c)
  {
    match e
    case MainLoop => MainLoopStep(c, m)
    case MainInterrupt(i) => MainIsrStep(c, m, i)
    case Tick(t) => TickerStep(c, m, t)
    case UsbRpm(rpm) => m.(cmd := m.cmd.(cmdRpm := rpm))
    case UsbNegate => m.(cmd := m.cmd.(cmdRpm := -m.cmd.cmdRpm))
    case UsbCalibrate =>
      m.(calib := Calibration.Started(m.calib, c), pwm := m.pwm.(enabled := true),
         run := m.run.(status := Calibrate))
    case AdcSpurious => Spurious(m)
    case AdcCheck(volts, biased) => m.(run := OffsetChecked(m.run, volts, biased))
  }

  method Dispatch(m: Motor, e: Event)
    requires m.Valid()
    modifies m.Repr()
    ensures m.Valid() && m.Value() == Step(m.cfg, old(m.Value()), e)
  {
    hide MainLoopStep, MainIsrStep, TickerStep, Calibration.Started;
    match e {
      case MainLoop => CmdSpdSet(m);
      case MainInterrupt(i) => MainIsr(m, i);
      case Tick(t) => Ticker(m, t);
      case UsbRpm(rpm) => m.cmd := m.cmd.(cmdRpm := rpm);
      case UsbNegate => m.cmd := m.cmd.(cmdRpm := -m.cmd.cmdRpm);
      case UsbCalibrate => Calibration.StartCalibration(m);
      case AdcSpurious =>
        FastStop(m);
        m.run := m.run.(fault := m.run.fault + {UndefInt});
      case AdcCheck(volts, biased) =>
        m.run := m.run.(vbus := volts);
        if biased {
          m.run := m.run.(fault := m.run.fault + {AdOffset});
        }
    }
  }

  /** The motor when interrupts are enabled. */
  function Boot(c: Cfg): Machine
    requires CfgOk(c)
  {
    SwInit(c, Zeroed(c))
  }

  method Start(c: Cfg) returns (m: Motor)
    requires CfgOk(c)
    ensures fresh(m.Repr()) && m.Valid() && m.cfg == c && m.Value() == Boot(c)
  {
    hide SwInit, Zeroed;
    m := new Motor(c);
    MotorSwInit(m);
  }
}
