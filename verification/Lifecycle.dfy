/** What every interleaved run of the handlers keeps: outputs off when idle, faults contained,
    reversal only through idle, and bounded start and calibration. */
module Lifecycle {
  import opened Protection
  import opened SpaceVector
  import opened PiCalc
  import opened MotorTypes
  import opened Handlers
  import Numeric
  import Startup
  import Calibration
  import SpeedSet
  import StopControl
  import Trig
  import Encoder
  import opened Transform

  /** The state after a run of handler calls. */
  function After(c: Cfg, m: Machine, events: seq<Event>): Machine
    requires CfgOk(c)
    decreases |events|
  {
    if events == [] then m else
      var last := |events| - 1;
      Step(c, After(c, m, events[..last]), events[last])
  }

  function Reached(c: Cfg, events: seq<Event>): Machine
    requires CfgOk(c)
  {
    After(c, Boot(c), events)
  }

  // ----- The invariant ------------------------------------------------------------------

  ghost predicate Valid(c: Cfg, m: Machine) {
    && CfgOk(c) && m.run.sysRdy
    && Startup.Valid(m.start, c.observer)
    && StopControl.Valid(m.stop)
    && Calibration.Going(m.calib, c)
    && (m.run.status == Calibrate ==> m.calib.step != Null)
    && (m.run.status == DrvRun ==> Enabled(m))
    && SpeedSet.Coherent(m.cmd, m.run, c)
    && m.traj.maxStep == c.maxStep && m.traj.maxWr == c.maxWr
    && 0 <= m.spdRegCnt < Period(c)
  }

  /** While running, the current loop is on from the state detection and the speed loop with its
      ramp exactly from the end of the start. */
  predicate Enabled(m: Machine) {
    && (m.run.enCurrentPid <==> Detected(m.start.status))
    && (m.run.enSpdPid <==> m.start.status == Finish)
    && (m.run.enSpdTraj <==> m.start.status == Finish)
  }

  predicate Detected(s: StartStatus) {
    s == StartStatus.Align || s == ForceDrive || s == CLStart || s == Finish
  }

  /** Ticks from one call of the speed regulation to the next. */
  function Period(c: Cfg): int {
    if c.spdRegTime < 1 then 1 else c.spdRegTime
  }

  /** The fields that no sequence changes: fault word, command, directions and readings. */
  predicate SameReadings(r: Run, q: Run) {
    && q.fault == r.fault && q.sysRdy == r.sysRdy
    && q.cmdDir == r.cmdDir && q.tgtDir == r.tgtDir && q.cmdWr == r.cmdWr
    && q.vbus == r.vbus && q.avgVbus == r.avgVbus && q.iuvw == r.iuvw
  }

  /** The ramp, its enable and its timer. */
  predicate SameRamp(m: Machine, n: Machine) {
    n.traj == m.traj && n.run.enSpdTraj == m.run.enSpdTraj && n.spdRegCnt == m.spdRegCnt
  }

  // ----- The parts of a main interrupt --------------------------------------------------

  /** A fault that is up after `Guard` stops the motor; otherwise only the over-current bit moved. */
  lemma GuardLaw(m: Machine)
    ensures var g := Guard(m);
      && g == m.(oc := g.oc, run := g.run, pwm := g.pwm)
      && g.run == (if g.run.fault == {} then m.run.(fault := {}) else Stopped(m.run).(fault := g.run.fault))
      && g.pwm == (if g.run.fault == {} then m.pwm else Off)
      && (g.oc, OcPeak in g.run.fault) == OcStep(m.oc, OcPeak in m.run.fault, Over(m.run.iuvw, m.oc.threshold))
      && (forall f :: f != OcPeak ==> (f in g.run.fault <==> f in m.run.fault))
  {
    hide OcStep, Over;
  }

  /** What a fast stop leaves: every enable off but the ramp's, and every current, voltage and
      reference at zero. */
  predicate AllOff(r: Run) {
    && !r.enSpdPid && !r.enCurrentPid && !r.enBreak && r.realTimeWr == 0.0
    && r.uab == AB(0.0, 0.0) && r.iab == AB(0.0, 0.0) && r.iqd == QD(0.0, 0.0) && r.iqdRef == QD(0.0, 0.0)
  }

  /** The phase currents as sampled: driven clockwise, U and V change places. */
  function Phases(d: Dir, adc: Currents): Currents {
    if d == Ccw then adc else Currents(adc.v, adc.u, adc.w)
  }

  /** The state on which the branches of the main interrupt work. */
  function Ready(c: Cfg, m: Machine, i: MainIn): Machine
    requires CfgOk(c)
  {
    var g := Guard(m);
    var s := g.(run := Sampled(c, g.run, i));
    s.(enc := Encoded(c, s, i))
  }

  lemma ReadyLaw(c: Cfg, m: Machine, i: MainIn)
    requires CfgOk(c)
    ensures var g, s := Guard(m), Ready(c, m, i);
      && s == g.(run := s.run, enc := s.enc)
      && s.run == g.run.(vbus := i.vbus, iuvw := s.run.iuvw, iab := s.run.iab)
      && s.run.iuvw == Phases(m.run.tgtDir, i.adc)
      && s.run.iab.alpha == s.run.iuvw.u && (c.root3 * s.run.iab.beta - s.run.iab.alpha) / 2.0 == s.run.iuvw.v
      && s.enc == Encoded(c, m.(run := m.run.(tgtDir := s.run.tgtDir)), i)
      && s.run.tgtDir == m.run.tgtDir
  {
    var iuvw := Phases(m.run.tgtDir, i.adc);
    ClarkeInverts(iuvw.u, iuvw.v, c.root3);
    hide Guard, Clarke, CfgOk, Encoder.Step, Trig.Normal;
    GuardLaw(m);
  }

  /** A calibrating interrupt goes on or ends idle with the registers at zero; its registers are
      the modulated counts exactly when it drives the bridge. */
  lemma CalibrateLaw(c: Cfg, m: Machine, i: MainIn)
    requires CfgOk(c) && Calibration.Going(m.calib, c) && m.calib.step != Null && m.run.status == Calibrate
    ensures var n := CalibrateIsr(c, m, i);
      && n == m.(calib := n.calib, run := n.run, pwm := n.pwm)
      && SameReadings(m.run, n.run) && n.run.enSpdTraj == m.run.enSpdTraj
      && Calibration.Going(n.calib, c)
      && n.calib == Calibration.Next(m.calib, c, m.run.iuvw.u, i.undef)
      && Calibration.Left(n.calib, c) <= Calibration.Left(m.calib, c) - 1
      && n.run.status == (if n.calib.step == Null then Idle else Calibrate)
      && (n.run.status == Idle ==> n.pwm.regs == Zeros)
      && n.pwm == CalibrationOutput(c, n, m.pwm, i.stray)
  {
    var k := Calibration.Next(m.calib, c, m.run.iuvw.u, i.undef);
    Calibration.NextValid(m.calib, c, m.run.iuvw.u, i.undef);
    Calibration.LeftStep(m.calib, c, m.run.iuvw.u, i.undef);
    Calibration.EndsIdle(m.calib, c, m.run.iuvw.u, i.undef, m.run);
    CalibrationDrives(m.calib, k, c, m.run);
    hide Calibration.Next, Calibration.Drives, Calibration.Left, Calibration.Valid, Sn, Cs, Ipark, CfgOk;
    ModulatedIgnores(c, Calibration.Drives(m.calib, k, c, m.run), i.stray);
    hide Modulated;
  }

  lemma ModulatedIgnores(c: Cfg, r: Run, stray: Three<int>)
    requires CfgOk(c)
    ensures Rotated(c, r) == r.(uab := Rotated(c, r).uab)
  {
  }

  function Driving(k: Calib): bool {
    k.outputType == 1 || k.outputType == 2
  }

  /** The bridge after a calibrating interrupt that ended in `n`. */
  function CalibrationOutput(c: Cfg, n: Machine, before: Pwm, stray: Three<int>): Pwm
    requires CfgOk(c)
  {
    if Driving(n.calib) then
      before.(counts := Modulated(c, n.run, stray), regs := Modulated(c, n.run, stray))
    else before.(regs := Zeros)
  }

  lemma CalibrationDrives(k: Calib, n: Calib, c: Cfg, r: Run)
    ensures SameReadings(r, Calibration.Drives(k, n, c, r)) && Calibration.Drives(k, n, c, r).enSpdTraj == r.enSpdTraj
  {
    hide Calibration.HoldVoltage;
    match k.step
    case RLoop =>
    case LLoop =>
    case LEnd =>
    case PpStart =>
    case PpLoop =>
    case PpEnd =>
    case _ =>
  }

  /** The regulators set the voltage and modulate it exactly while the current loop is on. */
  lemma RegulateLaw(c: Cfg, m: Machine, i: MainIn)
    requires CfgOk(c) && m.start.status != VfDrive
    ensures var n := Regulate(c, m, i);
      && n == m.(idPid := n.idPid, iqPid := n.iqPid, run := n.run, pwm := n.pwm)
      && n.run == m.run.(iqd := n.run.iqd, uqdRef := n.run.uqdRef, uab := n.run.uab)
      && n.pwm == m.pwm.(counts := if n.run.enCurrentPid then Modulated(c, n.run, i.stray) else m.pwm.counts)
  {
    hide Sn, Cs, Ipark, Park, Modulated, IncStep, Demand, CfgOk;
  }

  /** A running interrupt makes one call of the start sequence and modulates its demand while the
      current loop is on. */
  lemma RunLaw(c: Cfg, m: Machine, i: MainIn)
    requires CfgOk(c) && Startup.Valid(m.start, c.observer) && m.run.status == DrvRun && Enabled(m)
    ensures var n := DriveIsr(c, m, i);
      && n.start == Startup.Next(m.start, c.observer) && Startup.Valid(n.start, c.observer)
      && n.stop == m.stop && n.calib == m.calib && n.cmd == m.cmd
      && n.vbus == m.vbus && n.oc == m.oc && n.wrPid == m.wrPid
      && n.enc == m.enc.(offset := n.enc.offset)
      && n.run.status == DrvRun && SameReadings(m.run, n.run) && Enabled(n)
      && n.traj == m.traj.(tgtWr := n.traj.tgtWr, output := n.traj.output, wrISum := n.traj.wrISum)
      && (n.spdRegCnt == m.spdRegCnt || n.spdRegCnt == 0)
      && (m.start.status == Finish ==> SameRamp(m, n))
      && (m.start.status != CLStart || IsHfi(c.observer) ==> n.traj == m.traj)
      && (m.start.status == CLStart && !IsHfi(c.observer) ==> n.traj.tgtWr == HandoverSpeed(c, m, i))
      && (m.start.status == CLStart ==> n.spdRegCnt == 0)
      && n.run.drvAngle == Startup.AngleAfter(m.start, n.start, c.observer, m.run.drvAngle, DriveTheta(c, m, i))
      && n.run.iqdRef == Startup.ReferenceAfter(m.start, n.start, c.observer, m.run.iqdRef)
      && n.pwm.counts == (if n.run.enCurrentPid then Modulated(c, n.run, i.stray) else m.pwm.counts)
      && n.pwm.regs == LegOrder(n.run.tgtDir, n.pwm.counts)
  {
    hide Startup.Next, Startup.Valid, Startup.Enables, Startup.AngleAfter, Startup.ReferenceAfter,
         Startup.Handover, Startup.OffsetAfter, Regulate, Modulated, CfgOk;
    Startup.NextValid(m.start, c.observer);
    var a := m.(run := m.run.(realTimeWr := if c.observer == UseEncoder then m.enc.phaseVel else i.realWr));
    var b := Sequence(c, a, i);
    StartupEnables(m.start, c.observer, a.run);
    HandoverLaw(m.start, c.observer, m.traj, a.run, if c.observer == UseEncoder then m.enc.vel else i.wr);
    NotVfDrive(b.start, c.observer);
    RegulateLaw(c, b, i);
  }

  /** The estimated speed that the ramp starts from. */
  function HandoverSpeed(c: Cfg, m: Machine, i: MainIn): real {
    if c.observer == UseEncoder then m.enc.vel else i.wr
  }

  /** The angle a closed loop drives at. */
  function DriveTheta(c: Cfg, m: Machine, i: MainIn): real {
    if c.observer == UseEncoder then m.enc.phase else i.theta
  }

  lemma NotVfDrive(s: Start, o: ObserverType)
    requires Startup.Valid(s, o)
    ensures s.status != VfDrive
  {
  }

  lemma HandoverLaw(s: Start, o: ObserverType, t: Traj, r: Run, wr: real)
    ensures var u := Startup.Handover(s, o, t, r, wr);
      && u == t.(tgtWr := u.tgtWr, output := u.output, wrISum := u.wrISum)
      && (s.status != CLStart || IsHfi(o) ==> u == t) && (s.status == CLStart && !IsHfi(o) ==> u.tgtWr == wr)
  {
  }

  /** The enables follow the state that the call enters. */
  lemma StartupEnables(s: Start, o: ObserverType, r: Run)
    requires Startup.Valid(s, o)
    requires (r.enCurrentPid <==> Detected(s.status)) && (r.enSpdPid <==> s.status == Finish)
    requires r.enSpdTraj <==> s.status == Finish
    ensures var q, n := Startup.Enables(s, r), Startup.Next(s, o);
      && q.status == r.status && SameReadings(r, q) && (s.status == Finish ==> q == r)
      && q.enBreak == (r.enBreak && s.status != Initialize)
      && (q.enCurrentPid <==> Detected(n.status)) && (q.enSpdPid <==> n.status == Finish)
      && (q.enSpdTraj <==> n.status == Finish)
  {
    StatusAfter(s, o);
    hide Startup.Next, Startup.Valid;
    match s.status
    case Initialize =>
    case StateDetect =>
    case CLStart =>
    case _ =>
  }

  lemma StatusAfter(s: Start, o: ObserverType)
    requires Startup.Valid(s, o)
    ensures var n := Startup.Next(s, o);
      && (Detected(n.status) <==> Detected(s.status) || s.status == StateDetect)
      && (n.status == Finish <==> s.status == CLStart || s.status == Finish)
      && s.status in {Initialize, BscCharge, StateDetect, StartStatus.Align, ForceDrive, CLStart, Finish}
  {
    hide Startup.Ramp;
  }

  /** A stopping interrupt ends idle with everything off. */
  lemma StopLaw(c: Cfg, m: Machine, i: MainIn)
    requires CfgOk(c) && Startup.Valid(m.start, c.observer) && StopControl.Valid(m.stop) && m.run.status == DrvStop
    ensures var n := DriveIsr(c, m, i);
      && n == m.(stop := n.stop, run := n.run, pwm := Off)
      && StopControl.Valid(n.stop) && n.run.status == Idle && SameReadings(m.run, n.run)
      && AllOff(n.run) && n.run.drvAngle == (if c.observer == UseEncoder then m.enc.phase else i.stopAngle)
  {
    hide StopControl.Drives, StopControl.Stops, StopControl.Next, StopControl.Valid, Startup.Valid, Regulate, CfgOk;
    var wr := if c.observer == UseEncoder then m.enc.phaseVel else i.realWr;
    var angle := if c.observer == UseEncoder then m.enc.phase else i.stopAngle;
    var a := m.(run := m.run.(realTimeWr := wr));
    StopControl.AlwaysStops(m.stop, m.start.status == Finish, i.slow, a.run, angle);
    StopDrives(m.stop, m.start.status == Finish, i.slow, a.run, angle);
    var b := Sequence(c, a, i);
    NotVfDrive(m.start, c.observer);
    RegulateLaw(c, b, i);
    RegulatorsOff(c, b, i);
    ParkedZero(c, b.run);
    hide Parked;
  }

  lemma ParkedZero(c: Cfg, r: Run)
    requires CfgOk(c) && r.iab == AB(0.0, 0.0)
    ensures Parked(c, r) == r.(iqd := QD(0.0, 0.0))
  {
  }

  lemma RegulatorsOff(c: Cfg, m: Machine, i: MainIn)
    requires CfgOk(c) && !m.run.enCurrentPid && m.start.status != VfDrive
    ensures Regulate(c, m, i) == m.(run := Parked(c, m.run))
  {
  }

  lemma StopDrives(s: Stop, started: bool, slow: bool, r: Run, angle: real)
    requires StopControl.Stops(s, started, slow)
    ensures var q := StopControl.Drives(s, started, slow, r, angle);
            q == Stopped(r).(enSpdTraj := q.enSpdTraj, drvAngle := angle)
  {
  }

  // ----- Main interrupts ----------------------------------------------------------------

  /** After every main interrupt: idle means that the three registers are zero; a fault, or a
      stop asked for before, means idle with the channels disabled as well. The interrupt leaves
      the status as it found it or makes it idle, and never turns the target direction. */
  lemma MainIsrLaw(c: Cfg, m: Machine, i: MainIn)
    requires Valid(c, m)
    ensures var n := MainIsrStep(c, m, i);
      && (n.run.status == Idle ==> n.pwm.regs == Zeros)
      && (n.run.fault != {} || m.run.status == DrvStop || m.run.status == Idle ==> n.run.status == Idle && n.pwm == Off)
      && (n.run.status == Idle || n.run.status == m.run.status)
      && (n.run.fault == {} && m.run.status == DrvRun ==> n.run.status == DrvRun)
      && n.run.fault == Guard(m).run.fault && n.oc == Guard(m).oc
      && n.cmd == m.cmd && n.wrPid == m.wrPid && n.vbus == m.vbus
      && n.run.tgtDir == m.run.tgtDir && n.run.cmdDir == m.run.cmdDir && n.run.cmdWr == m.run.cmdWr
      && n.run.vbus == i.vbus && n.run.avgVbus == m.run.avgVbus
      && n.run.iuvw == Phases(m.run.tgtDir, i.adc)
      && (n.run.fault != {} || m.run.status == DrvStop || m.run.status == Idle ==> AllOff(n.run))
      && Valid(c, n)
      && (n.run.status == DrvRun ==> n.start == Startup.Next(m.start, c.observer))
      && (n.run.status == Calibrate ==> Calibration.Left(n.calib, c) <= Calibration.Left(m.calib, c) - 1)
      && (n.run.status != DrvRun ==> n.start == m.start)
      && (n.run.status == DrvRun && m.start.status == Finish ==> SameRamp(m, n))
      && (m.start.status != CLStart || IsHfi(c.observer) ==> n.traj == m.traj)
      && (n.run.status == DrvRun && m.start.status == CLStart ==>
            && n.spdRegCnt == 0
            && (!IsHfi(c.observer) ==>
                  n.traj.tgtWr == if c.observer == UseEncoder then Encoded(c, m, i).vel else i.wr))
      && n.enc == Encoded(c, m, i).(offset := n.enc.offset)
  {
    hide Guard, Ready, Encoded, CalibrateIsr, DriveIsr, Startup.Next, Startup.Valid, StopControl.Valid,
         Calibration.Next, Calibration.Going, Calibration.Left, Startup.AngleAfter, Startup.ReferenceAfter,
         Modulated, CfgOk;
    GuardLaw(m);
    ReadyLaw(c, m, i);
    BranchLaw(c, m, i);
    EncodedDirection(c, m, i);
    var s := Ready(c, m, i);
    match s.run.status {
      case Calibrate => CalibrateLaw(c, s, i);
      case DrvRun => RunLaw(c, s, i);
      case DrvStop => StopLaw(c, s, i);
      case Idle =>
    }
  }

  lemma BranchLaw(c: Cfg, m: Machine, i: MainIn)
    requires CfgOk(c)
    ensures var s := Ready(c, m, i);
            MainIsrStep(c, m, i) ==
              if s.run.status == Calibrate then CalibrateIsr(c, s, i)
              else if s.run.status == Idle then s.(run := Stopped(s.run), pwm := Off)
              else DriveIsr(c, s, i)
  {
    hide Guard, Sampled, Encoded, CalibrateIsr, DriveIsr, Stopped;
  }

  lemma EncodedDirection(c: Cfg, m: Machine, i: MainIn)
    ensures forall r: Run :: r.tgtDir == m.run.tgtDir ==> Encoded(c, m.(run := r), i) == Encoded(c, m, i)
  {
    hide Encoder.Step, Trig.Normal;
  }

  // ----- The other handlers -------------------------------------------------------------

  lemma ReinitLaw(c: Cfg, m: Machine)
    requires CfgOk(c)
    ensures var n := Reinit(c, m);
      && Startup.Valid(n.start, c.observer) && StopControl.Valid(n.stop) && Calibration.Going(n.calib, c)
      && n.traj.maxStep == c.maxStep && n.traj.maxWr == c.maxWr && n.start.status == Initialize
  {
  }

  /** What the over-current check and the bus average will read next. */
  predicate SameInputs(m: Machine, n: Machine) {
    n.oc == m.oc && n.run.iuvw == m.run.iuvw && n.run.vbus == m.run.vbus
  }

  /** What the main loop needs to start the motor. */
  predicate Starts(m: Machine) {
    m.run.status == Idle && m.run.fault == {} && m.cmd.cmdRpm != 0
  }

  /** The main loop starts the motor exactly from idle, without a fault and with a command, and
      then with start sequence, stop sequence, calibration, ramp and regulators all afresh;
      otherwise it leaves those and the target direction alone. Without a fault it stops a running
      motor exactly on a zero command, or with braking enabled on one against its direction. */
  lemma MainLoopLaw(c: Cfg, m: Machine)
    requires Valid(c, m)
    ensures var n := MainLoopStep(c, m);
      && Valid(c, n) && n.pwm == m.pwm && n.run.fault == m.run.fault && n.cmd.cmdRpm == n.cmd.preCmdRpm
      && (m.run.fault != {} ==> n.cmd == Cmd(0, 0) && n.run.status == Idle)
      && (m.run.fault == {} ==> (n.cmd.cmdRpm == 0 <==> m.cmd.cmdRpm == 0) && (n.cmd.cmdRpm > 0 <==> m.cmd.cmdRpm > 0))
      && (m.run.fault == {} && m.run.status == DrvRun && m.cmd.cmdRpm != 0 && !c.breakEnable ==> n.run.status == DrvRun)
      && (m.run.fault == {} && m.run.status != Idle ==> n.run.status != Idle)
      && (n.cmd.cmdRpm > 0 ==> n.run.cmdDir == Ccw) && (n.cmd.cmdRpm < 0 ==> n.run.cmdDir == Cw)
      && (m.run.fault == {} && m.run.status == DrvRun ==>
            && (n.run.status == DrvStop || n.run.status == DrvRun)
            && (n.run.status == DrvStop <==>
                  m.cmd.cmdRpm == 0 || (c.breakEnable && n.run.cmdDir != m.run.tgtDir)))
      && (m.run.fault == {} && m.run.status != DrvRun && !Starts(m) ==> n.run.status == m.run.status)
      && (Starts(m) ==> n.run.status == DrvRun && IsFresh(c, n))
      && (!Starts(m) ==>
            && (n.run.status == m.run.status || n.run.status == Idle || n.run.status == DrvStop)
            && n.run.tgtDir == m.run.tgtDir && n.run.drvAngle == m.run.drvAngle
            && n.start == m.start && n.calib == m.calib && n.wrPid == m.wrPid && SameRamp(m, n)
            && n.run.iqdRef == m.run.iqdRef)
      && SameInputs(m, n) && n.run.avgVbus == m.run.avgVbus && n.vbus == m.vbus
      && n.enc == (if Starts(m) && c.observer == UseEncoder then Encoder.Reset(m.enc) else m.enc)
  {
    hide Encoder.Reset;
    hide Startup.Cleared, Calibration.Reset, SpeedSet.Accepted, SpeedSet.AcceptRun, SpeedSet.Coherent,
         Startup.Valid, Calibration.Going, StopControl.Valid, Reinit;
    var a := AcceptCommand(c, m);
    SpeedSet.AcceptLaw(m.cmd, m.run, c);
    AcceptKeeps(m.cmd, m.run, c);
    ReinitLaw(c, a);
    ReinitKeeps(c, a);
    RefusedCoherent(c, m);
    CoherentKept(c, a, MainLoopStep(c, m));
  }

  /** Every part that a new start relies on has just been initialised, and the motor turns the
      commanded way. */
  predicate IsFresh(c: Cfg, n: Machine)
    requires CfgOk(c)
  {
    && n.start == Startup.Cleared(c) && n.stop == StopControl.Cleared && n.calib == Calibration.Reset(c)
    && n.traj == SpeedSet.Cleared(c) && n.wrPid == c.wrPid && n.idPid == c.idPid && n.iqPid == c.iqPid
    && !n.run.enSpdPid && !n.run.enSpdTraj && !n.run.enCurrentPid && !n.run.enBreak
    && n.run.tgtDir == n.run.cmdDir
  }

  lemma ReinitKeeps(c: Cfg, m: Machine)
    requires CfgOk(c)
    ensures var n := Reinit(c, m);
      && n.pwm == m.pwm && n.cmd == m.cmd && n.vbus == m.vbus && n.oc == m.oc && n.spdRegCnt == m.spdRegCnt
      && n.enc == (if c.observer == UseEncoder then Encoder.Reset(m.enc) else m.enc)
      && n.run == m.run.(enSpdPid := false, enSpdTraj := false, enCurrentPid := false, enBreak := false)
      && IsFresh(c, n.(run := n.run.(tgtDir := n.run.cmdDir, status := DrvRun)))
  {
  }

  lemma AcceptKeeps(d: Cmd, r: Run, c: Cfg)
    ensures var q := SpeedSet.AcceptRun(d, r, c);
            q == r.(cmdDir := q.cmdDir, cmdWr := q.cmdWr)
  {
  }

  lemma RefusedCoherent(c: Cfg, m: Machine)
    ensures SpeedSet.Coherent(Refused(m).cmd, Refused(m).run, c)
  {
  }

  lemma CoherentKept(c: Cfg, m: Machine, n: Machine)
    ensures SpeedSet.Coherent(m.cmd, m.run, c) && n.cmd.preCmdRpm == m.cmd.preCmdRpm
              && n.run.cmdDir == m.run.cmdDir && n.run.cmdWr == m.run.cmdWr
            ==> SpeedSet.Coherent(n.cmd, n.run, c)
  {
  }

  /** A tick can ask for a stop in any status, and changes no other status. */
  lemma TickLaw(c: Cfg, m: Machine, t: TickIn)
    requires Valid(c, m)
    ensures var n := TickerStep(c, m, t);
      && Valid(c, n) && n.pwm == m.pwm && n.cmd == m.cmd && n.start == m.start && n.stop == m.stop && n.calib == m.calib
      && (n.run.status == m.run.status || n.run.status == DrvStop)
      && n.run.tgtDir == m.run.tgtDir && n.run.drvAngle == m.run.drvAngle
      && (forall f :: f != VdcOv && f != VdcUv && f != VdcAbnorm ==> (f in n.run.fault <==> f in m.run.fault))
      && (n.wrPid == m.wrPid || exists ref, fbk :: n.wrPid == PosStep(m.wrPid, ref, fbk))
      && (!m.run.enSpdPid ==> n.run.iqdRef == m.run.iqdRef)
      && (!m.run.enSpdTraj ==> n.traj == m.traj && n.run.status == m.run.status)
      && n.run.enSpdTraj == m.run.enSpdTraj && n.run.cmdWr == m.run.cmdWr
      && SameInputs(m, n) && n.enc == m.enc && n.run.cmdDir == m.run.cmdDir
      && n.run.avgVbus == BusAverage(m.run)
      && (n.vbus, n.run.fault) == VbusStep(m.vbus, m.run.fault, BusAverage(m.run))
  {
    hide BusCheck, PosStep, Startup.Valid, StopControl.Valid, Calibration.Going,
         SpeedSet.Reversing, SpeedSet.StopsNow, SpeedSet.Coherent, VbusStep, BusAverage, CfgOk;
    BusLaw(m);
    CoherentKept(c, m, TickerStep(c, m, t));
  }

  /** The bus check moves its own counters, the mean voltage and three bits of the word. */
  lemma BusLaw(m: Machine)
    ensures var n := BusCheck(m);
      && n == m.(vbus := n.vbus, run := m.run.(avgVbus := n.run.avgVbus, fault := n.run.fault))
      && (forall f :: f != VdcOv && f != VdcUv && f != VdcAbnorm ==> (f in n.run.fault <==> f in m.run.fault))
      && n.run.avgVbus == BusAverage(m.run)
      && (n.vbus, n.run.fault) == VbusStep(m.vbus, m.run.fault, BusAverage(m.run))
  {
    StepBits(m.vbus, m.run.fault, BusAverage(m.run));
    hide VbusStep;
  }

  /** The averaged bus voltage after a tick. */
  function BusAverage(r: Run): real {
    r.avgVbus - 0.8 * (r.avgVbus - r.vbus)
  }

  // ----- One step -----------------------------------------------------------------------

  /** The bits that `Adc_CheckOffset` and the spurious interrupt raise. */
  function FaultAfter(w: FaultWord, e: Event): FaultWord {
    match e
    case AdcSpurious => w + {UndefInt}
    case AdcCheck(_, biased) => if biased then w + {AdOffset} else w
    case _ => w
  }

  /** The USB commands, the offset check and the spurious interrupt. */
  lemma OtherLaw(c: Cfg, m: Machine, e: Event)
    requires Valid(c, m) && !e.MainLoop? && !e.MainInterrupt? && !e.Tick?
    ensures var n := Step(c, m, e);
      && Valid(c, n) && n.start == m.start && n.wrPid == m.wrPid && n.run.tgtDir == m.run.tgtDir
      && n.run.drvAngle == m.run.drvAngle && SameRamp(m, n) && n.oc == m.oc && n.run.iuvw == m.run.iuvw
      && n.run.vbus == (if e.AdcCheck? then e.volts else m.run.vbus) && n.run.cmdWr == m.run.cmdWr
      && n.run.avgVbus == m.run.avgVbus && n.enc == m.enc && n.vbus == m.vbus
      && n.run.cmdDir == m.run.cmdDir && (if e.AdcSpurious? then AllOff(n.run) else n.run.iqdRef == m.run.iqdRef)
      && n.run.fault == FaultAfter(m.run.fault, e)
      && n.run.status == (match e case UsbCalibrate => Calibrate case AdcSpurious => Idle case _ => m.run.status)
      && n.pwm == (match e case UsbCalibrate => m.pwm.(enabled := true) case AdcSpurious => Off case _ => m.pwm)
      && (!e.UsbCalibrate? ==> n.calib == m.calib)
      && n.cmd == m.cmd.(cmdRpm := (match e case UsbRpm(v) => v case UsbNegate => -m.cmd.cmdRpm case _ => m.cmd.cmdRpm))
  {
    hide Startup.Valid, StopControl.Valid;
    CalibrationStartGoing(m.calib, c);
    CoherentKept(c, m, Step(c, m, e));
    hide Calibration.Going, SpeedSet.Coherent, Calibration.Started;
  }

  lemma CalibrationStartGoing(k: Calib, c: Cfg)
    requires CfgOk(c)
    ensures Calibration.Going(Calibration.Started(k, c), c) && Calibration.Started(k, c).step == RStart
  {
  }

  lemma StepValid(c: Cfg, m: Machine, e: Event)
    requires Valid(c, m)
    ensures Valid(c, Step(c, m, e))
  {
    hide Valid, MainLoopStep, MainIsrStep, TickerStep;
    hide Guard, Starts, IsFresh;
    match e
    case MainLoop => MainLoopLaw(c, m);
    case MainInterrupt(i) => MainIsrLaw(c, m, i);
    case Tick(t) => TickLaw(c, m, t);
    case _ => OtherLaw(c, m, e);
  }

  lemma BootValid(c: Cfg)
    requires CfgOk(c)
    ensures Valid(c, Boot(c)) && Boot(c).run.status == Idle && Boot(c).run.fault == {} && Boot(c).pwm == Off
    ensures Boot(c).wrPid == c.wrPid
  {
  }

  lemma {:induction false} AfterValid(c: Cfg, m: Machine, events: seq<Event>)
    requires Valid(c, m)
    ensures Valid(c, After(c, m, events))
    decreases |events|
  {
    hide Valid, Step;
    ConfigOk(c, m);
    if events != [] {
      var last := |events| - 1;
      AfterValid(c, m, events[..last]);
      StepValid(c, After(c, m, events[..last]), events[last]);
    }
  }

  lemma ConfigOk(c: Cfg, m: Machine)
    requires Valid(c, m)
    ensures CfgOk(c)
  {
  }

  /** Every run of handler calls keeps the invariant. */
  lemma ReachedValid(c: Cfg, events: seq<Event>)
    requires CfgOk(c)
    ensures Valid(c, Reached(c, events))
  {
    hide Valid, Boot;
    BootValid(c);
    AfterValid(c, Boot(c), events);
  }

  lemma AfterSnoc(c: Cfg, m: Machine, events: seq<Event>, e: Event)
    requires CfgOk(c)
    ensures After(c, m, events + [e]) == Step(c, After(c, m, events), e)
  {
    assert (events + [e])[..|events|] == events;
  }

  // ----- Outputs ------------------------------------------------------------------------

  /** In every run, a main interrupt that ends idle leaves the registers at zero, and one that
      starts in DRV_STOP ends idle with the channels disabled too. */
  lemma IdleMeansOff(c: Cfg, events: seq<Event>, i: MainIn)
    requires CfgOk(c)
    ensures var m, n := Reached(c, events), Reached(c, events + [MainInterrupt(i)]);
      && (n.run.status == Idle ==> n.pwm.regs == Zeros)
      && (m.run.status == DrvStop ==> n.run.status == Idle && n.pwm == Off)
  {
    hide Reached, Valid, Guard, MainIsrStep;
    ReachedValid(c, events);
    MainIsrLaw(c, Reached(c, events), i);
    ReachedSnoc(c, events, MainInterrupt(i));
  }

  lemma ReachedSnoc(c: Cfg, events: seq<Event>, e: Event)
    requires CfgOk(c)
    ensures Reached(c, events + [e]) == Step(c, Reached(c, events), e)
  {
    hide Step, Boot;
    AfterSnoc(c, Boot(c), events, e);
  }

  predicate Silent(m: Machine) {
    m.pwm.regs == Zeros && m.pwm.counts == Zeros
  }

  /** While the fault word is not empty no step makes a silent bridge speak. */
  lemma FaultedStepSilent(c: Cfg, m: Machine, e: Event)
    requires Valid(c, m) && Step(c, m, e).run.fault != {}
    requires Silent(m) || e.MainInterrupt?
    ensures Silent(Step(c, m, e))
  {
    hide Valid, MainLoopStep, MainIsrStep, TickerStep, Guard, Starts, IsFresh;
    match e
    case MainLoop => MainLoopLaw(c, m);
    case MainInterrupt(i) => MainIsrLaw(c, m, i);
    case Tick(t) => TickLaw(c, m, t);
    case _ => OtherLaw(c, m, e);
  }

  /** From the first main interrupt that sees a fault, until the fault word clears, the compare
      registers stay zero whatever the handlers do. */
  lemma {:induction false} FaultContained(c: Cfg, m: Machine, i: MainIn, events: seq<Event>)
    requires Valid(c, m)
    requires var n := MainIsrStep(c, m, i);
             CfgOk(c) && forall k :: 0 <= k <= |events| ==> After(c, n, events[..k]).run.fault != {}
    ensures Silent(After(c, MainIsrStep(c, m, i), events))
    decreases |events|
  {
    hide Valid, MainIsrStep, Guard, Silent, Step;
    var n := MainIsrStep(c, m, i);
    assert events[..|events|] == events;
    MainInterruptIsStep(c, m, i);
    StepValid(c, m, MainInterrupt(i));
    if events == [] {
      FaultedStepSilent(c, m, MainInterrupt(i));
    } else {
      var last := |events| - 1;
      var before := events[..last];
      forall k | 0 <= k <= |before|
        ensures After(c, n, before[..k]).run.fault != {}
      {
        assert before[..k] == events[..k];
      }
      FaultContained(c, m, i, before);
      AfterValid(c, n, before);
      FaultedStepSilent(c, After(c, n, before), events[last]);
    }
  }

  lemma MainInterruptIsStep(c: Cfg, m: Machine, i: MainIn)
    requires CfgOk(c)
    ensures Step(c, m, MainInterrupt(i)) == MainIsrStep(c, m, i)
  {
  }

  lemma TickIsStep(c: Cfg, m: Machine, t: TickIn)
    requires CfgOk(c)
    ensures Step(c, m, Tick(t)) == TickerStep(c, m, t)
  {
  }

  // ----- No restart without a command ---------------------------------------------------

  predicate NewCommand(e: Event) {
    e.UsbRpm? && e.rpm != 0
  }

  ghost predicate Halted(m: Machine) {
    m.cmd == Cmd(0, 0) && m.run.status != DrvRun
  }

  lemma HaltedStep(c: Cfg, m: Machine, e: Event)
    requires Valid(c, m) && Halted(m) && !NewCommand(e)
    ensures Halted(Step(c, m, e))
  {
    hide Valid, MainIsrStep, TickerStep, Guard, IsFresh;
    match e
    case MainLoop => MainLoopLaw(c, m);
    case MainInterrupt(i) => MainIsrLaw(c, m, i);
    case Tick(t) => TickLaw(c, m, t);
    case _ => OtherLaw(c, m, e);
  }

  /** Once the main loop has seen a fault, the motor runs again only after a new non-zero speed
      command. */
  lemma {:induction false} NoRestart(c: Cfg, m: Machine, events: seq<Event>)
    requires Valid(c, m) && m.run.fault != {} && CfgOk(c)
    ensures var n := After(c, MainLoopStep(c, m), events);
            (forall k :: 0 <= k < |events| ==> !NewCommand(events[k])) ==> Halted(n)
    decreases |events|
  {
    hide Valid, MainLoopStep, Step, IsFresh, Starts;
    MainLoopLaw(c, m);
    if events != [] && (forall k :: 0 <= k < |events| ==> !NewCommand(events[k])) {
      var last := |events| - 1;
      NoRestart(c, m, events[..last]);
      AfterValid(c, MainLoopStep(c, m), events[..last]);
      HaltedStep(c, After(c, MainLoopStep(c, m), events[..last]), events[last]);
    }
  }

  predicate IsInterrupt(e: Event) {
    e.MainInterrupt? || e.Tick? || e.AdcSpurious? || e.AdcCheck?
  }

  lemma InterruptKeepsCommand(c: Cfg, m: Machine, e: Event)
    requires Valid(c, m) && IsInterrupt(e)
    ensures Step(c, m, e).cmd == m.cmd
  {
    hide Valid, MainLoopStep, MainIsrStep, TickerStep, Guard, Starts, IsFresh;
    match e
    case MainInterrupt(i) => MainIsrLaw(c, m, i);
    case Tick(t) => TickLaw(c, m, t);
    case _ => OtherLaw(c, m, e);
  }

  /** A fault that comes and goes between two calls of the main loop does not count: whatever the
      interrupts did, a stopped motor restarts at the next call exactly when the fault word is
      empty and the old command is still pending. */
  lemma {:induction false} RestartIff(c: Cfg, m: Machine, events: seq<Event>)
    requires Valid(c, m) && CfgOk(c) && forall k :: 0 <= k < |events| ==> IsInterrupt(events[k])
    ensures var n := After(c, m, events);
      && n.cmd == m.cmd
      && (n.run.status == Idle ==>
            (MainLoopStep(c, n).run.status == DrvRun <==> n.run.fault == {} && m.cmd.cmdRpm != 0))
    decreases |events|
  {
    hide Valid, Step, MainLoopStep, IsFresh;
    if events != [] {
      var last := |events| - 1;
      RestartIff(c, m, events[..last]);
      AfterValid(c, m, events[..last]);
      InterruptKeepsCommand(c, After(c, m, events[..last]), events[last]);
    }
    AfterValid(c, m, events);
    MainLoopLaw(c, After(c, m, events));
  }

  // ----- The undefined interrupt latches ------------------------------------------------

  ghost predicate Dead(m: Machine) {
    UndefInt in m.run.fault && m.run.status != DrvRun && Silent(m)
  }

  lemma DeadStep(c: Cfg, m: Machine, e: Event)
    requires Valid(c, m) && Dead(m)
    ensures Dead(Step(c, m, e))
  {
    hide Valid, MainLoopStep, MainIsrStep, TickerStep, Guard, IsFresh;
    GuardLaw(m);
    match e
    case MainLoop => MainLoopLaw(c, m);
    case MainInterrupt(i) => MainIsrLaw(c, m, i);
    case Tick(t) => TickLaw(c, m, t);
    case _ => OtherLaw(c, m, e);
  }

  /** No handler clears the undefined-interrupt bit: after one spurious interrupt the motor never
      runs again and its registers stay zero. */
  lemma {:induction false} SpuriousLatches(c: Cfg, m: Machine, events: seq<Event>)
    requires Valid(c, m) && CfgOk(c)
    ensures Dead(After(c, Spurious(m), events))
    decreases |events|
  {
    hide Valid, Step;
    SpuriousIsStep(c, m);
    if events != [] {
      var last := |events| - 1;
      SpuriousLatches(c, m, events[..last]);
      StepValid(c, m, AdcSpurious);
      AfterValid(c, Spurious(m), events[..last]);
      DeadStep(c, After(c, Spurious(m), events[..last]), events[last]);
    }
  }

  lemma SpuriousIsStep(c: Cfg, m: Machine)
    requires CfgOk(c)
    ensures Step(c, m, AdcSpurious) == Spurious(m)
  {
  }

  /** The bits that some handler clears again. */
  predicate Clears(f: Fault) {
    f == OcPeak || f == VdcOv || f == VdcUv || f == VdcAbnorm
  }

  lemma LatchedStep(c: Cfg, m: Machine, f: Fault, e: Event)
    requires Valid(c, m) && f in m.run.fault && !Clears(f)
    ensures var n := Step(c, m, e);
      && f in n.run.fault
      && (m.run.status != DrvRun || e == MainLoop ==> n.run.status != DrvRun)
  {
    hide Valid, MainLoopStep, MainIsrStep, TickerStep, Guard, Encoded, IsFresh;
    GuardLaw(m);
    match e
    case MainLoop => MainLoopLaw(c, m);
    case MainInterrupt(i) => MainIsrLaw(c, m, i);
    case Tick(t) => TickLaw(c, m, t);
    case _ => OtherLaw(c, m, e);
  }

  /** Every other bit latches: once it is up it stays up, and a motor that is not running, or is
      no more after a call of the main loop, never runs again. */
  lemma {:induction false} FaultLatches(c: Cfg, m: Machine, f: Fault, events: seq<Event>)
    requires Valid(c, m) && CfgOk(c) && f in m.run.fault && !Clears(f)
    ensures var n := After(c, m, events);
      && f in n.run.fault
      && (m.run.status != DrvRun || MainLoop in events ==> n.run.status != DrvRun)
    decreases |events|
  {
    hide Valid, Step, Clears, CfgOk;
    if events != [] {
      var last := |events| - 1;
      assert events == events[..last] + [events[last]];
      FaultLatches(c, m, f, events[..last]);
      AfterValid(c, m, events[..last]);
      LatchedStep(c, After(c, m, events[..last]), f, events[last]);
    }
  }

  /** A biased offset is for good: from the next call of the main loop on the motor does not run. */
  lemma BiasedOffsetLatches(c: Cfg, m: Machine, volts: real, events: seq<Event>)
    requires Valid(c, m) && CfgOk(c) && MainLoop in events
    ensures var n := After(c, Step(c, m, AdcCheck(volts, true)), events);
            AdOffset in n.run.fault && n.run.status != DrvRun
  {
    hide Valid, Step, CfgOk;
    StepValid(c, m, AdcCheck(volts, true));
    OtherLaw(c, m, AdcCheck(volts, true));
    FaultLatches(c, Step(c, m, AdcCheck(volts, true)), AdOffset, events);
  }

  // ----- Reversal -----------------------------------------------------------------------

  /** The target direction turns only in the main loop, from idle, with everything afresh. */
  lemma TurnStep(c: Cfg, m: Machine, e: Event)
    requires Valid(c, m)
    ensures var n := Step(c, m, e);
      n.run.tgtDir != m.run.tgtDir ==> e == MainLoop && m.run.status == Idle && n.run.status == DrvRun && IsFresh(c, n)
  {
    hide Valid, MainLoopStep, MainIsrStep, TickerStep, Guard, IsFresh;
    match e
    case MainLoop => MainLoopLaw(c, m);
    case MainInterrupt(i) => MainIsrLaw(c, m, i);
    case Tick(t) => TickLaw(c, m, t);
    case _ => OtherLaw(c, m, e);
  }

  /** Between two states with opposite target directions the motor was idle, still set for the
      first direction, and was then started afresh. */
  lemma {:induction false} ReversalThroughIdle(c: Cfg, m: Machine, events: seq<Event>)
    requires Valid(c, m) && CfgOk(c) && After(c, m, events).run.tgtDir != m.run.tgtDir
    ensures exists k :: 0 <= k < |events| && TurnsAt(c, m, events, k)
    decreases |events|
  {
    hide Valid, Step, IsFresh;
    var last := |events| - 1;
    var before := events[..last];
    if After(c, m, before).run.tgtDir != m.run.tgtDir {
      ReversalThroughIdle(c, m, before);
      var k :| 0 <= k < |before| && TurnsAt(c, m, before, k);
      assert before[..k] == events[..k] && before[..k + 1] == events[..k + 1];
      assert TurnsAt(c, m, events, k);
    } else {
      AfterValid(c, m, before);
      TurnStep(c, After(c, m, before), events[last]);
      assert events[..last + 1] == events;
      assert TurnsAt(c, m, events, last);
    }
  }

  /** Call `k` is a main loop that finds the motor idle and turns its direction. */
  ghost predicate TurnsAt(c: Cfg, m: Machine, events: seq<Event>, k: nat)
    requires CfgOk(c) && k < |events|
  {
    var before, after := After(c, m, events[..k]), After(c, m, events[..k + 1]);
    && events[k] == MainLoop
    && before.run.status == Idle && before.run.tgtDir == m.run.tgtDir
    && after.run.status == DrvRun && after.run.tgtDir != m.run.tgtDir && IsFresh(c, after)
  }

  // ----- Start and calibration over interleaved runs ------------------------------------

  function Interrupts(events: seq<Event>): nat
    decreases |events|
  {
    if events == [] then 0 else
      var last := |events| - 1;
      Interrupts(events[..last]) + if events[last].MainInterrupt? then 1 else 0
  }

  /** The status is the same before and after every call. */
  ghost predicate Throughout(c: Cfg, m: Machine, events: seq<Event>, status: Status)
    requires CfgOk(c)
    decreases |events|
  {
    After(c, m, events).run.status == status && (events == [] || Throughout(c, m, events[..|events| - 1], status))
  }

  /** While the motor stays running, main interrupts and nothing else advance the start. */
  lemma RunningStep(c: Cfg, m: Machine, e: Event)
    requires Valid(c, m) && m.run.status == DrvRun && Step(c, m, e).run.status == DrvRun
    ensures Step(c, m, e).start == if e.MainInterrupt? then Startup.Next(m.start, c.observer) else m.start
  {
    hide Valid, MainLoopStep, MainIsrStep, TickerStep, Guard, IsFresh, Startup.Next;
    match e
    case MainLoop => MainLoopLaw(c, m);
    case MainInterrupt(i) => MainIsrLaw(c, m, i);
    case Tick(t) => TickLaw(c, m, t);
    case _ => OtherLaw(c, m, e);
  }

  lemma {:induction false} StartAdvances(c: Cfg, m: Machine, events: seq<Event>)
    requires Valid(c, m) && CfgOk(c) && Throughout(c, m, events, DrvRun)
    ensures After(c, m, events).start == Startup.Calls(m.start, c.observer, Interrupts(events))
    decreases |events|
  {
    hide Valid, Step, Startup.Next;
    if events != [] {
      var last := |events| - 1;
      StartAdvances(c, m, events[..last]);
      AfterValid(c, m, events[..last]);
      StayedBefore(c, m, events[..last], DrvRun);
      RunningStep(c, After(c, m, events[..last]), events[last]);
    }
  }

  lemma StayedBefore(c: Cfg, m: Machine, events: seq<Event>, status: Status)
    requires CfgOk(c) && Throughout(c, m, events, status)
    ensures After(c, m, events).run.status == status
  {
  }

  /** However main interrupts, ticks and commands interleave, a motor started by the main loop
      and kept running has finished its start at exactly the configured number of main
      interrupts. */
  lemma StartBound(c: Cfg, m: Machine, events: seq<Event>)
    requires Valid(c, m) && Starts(m) && CfgOk(c) && Startup.Climbs(Startup.Cleared(c), c.observer)
    requires Throughout(c, MainLoopStep(c, m), events, DrvRun)
    ensures var n := After(c, MainLoopStep(c, m), events);
            n.start.status == Finish <==> Interrupts(events) >= Startup.Length(c)
  {
    hide Valid, MainLoopStep, After, Throughout, Interrupts, Startup.Length, Startup.Calls, Starts, Startup.Cleared,
         Startup.Climbs;
    MainLoopLaw(c, m);
    StartAdvances(c, MainLoopStep(c, m), events);
    Startup.StartsInLength(c, Interrupts(events));
  }

  /** While calibrating, without a restart, main interrupts take calls off the calibration. */
  lemma CalibratingStep(c: Cfg, m: Machine, e: Event)
    requires Valid(c, m) && m.run.status == Calibrate && !e.UsbCalibrate? && Step(c, m, e).run.status == Calibrate
    ensures Calibration.Left(Step(c, m, e).calib, c) <= Calibration.Left(m.calib, c) - if e.MainInterrupt? then 1 else 0
  {
    hide Valid, MainLoopStep, MainIsrStep, TickerStep, Guard, IsFresh, Calibration.Left;
    ConfigOk(c, m);
    match e
    case MainLoop => MainLoopLaw(c, m);
    case MainInterrupt(i) => MainIsrLaw(c, m, i);
    case Tick(t) => TickLaw(c, m, t);
    case _ => OtherLaw(c, m, e);
  }

  lemma {:induction false} CalibrationAdvances(c: Cfg, m: Machine, events: seq<Event>)
    requires Valid(c, m) && CfgOk(c) && Throughout(c, m, events, Calibrate)
    requires forall k :: 0 <= k < |events| ==> !events[k].UsbCalibrate?
    ensures Calibration.Left(After(c, m, events).calib, c) <= Calibration.Left(m.calib, c) - Interrupts(events)
    decreases |events|
  {
    hide Valid, Step, Calibration.Left;
    if events != [] {
      var last := |events| - 1;
      CalibrationAdvances(c, m, events[..last]);
      AfterValid(c, m, events[..last]);
      StayedBefore(c, m, events[..last], Calibrate);
      CalibratingStep(c, After(c, m, events[..last]), events[last]);
    }
  }

  lemma CallsLeft(c: Cfg, m: Machine)
    requires Valid(c, m) && m.run.status == Calibrate
    ensures Calibration.Left(m.calib, c) >= 1
  {
    Calibration.LeftPositive(m.calib, c);
    hide Calibration.Left;
  }

  lemma StartedLeft(c: Cfg, m: Machine)
    requires CfgOk(c)
    ensures Calibration.Left(Step(c, m, UsbCalibrate).calib, c) == Calibration.Length(c)
  {
  }

  /** A calibration that nothing restarts is over before this many main interrupts, whatever is
      measured and however the handlers interleave. */
  lemma CalibrationBound(c: Cfg, m: Machine, events: seq<Event>)
    requires Valid(c, m) && CfgOk(c) && Throughout(c, Step(c, m, UsbCalibrate), events, Calibrate)
    requires forall k :: 0 <= k < |events| ==> !events[k].UsbCalibrate?
    ensures Interrupts(events) < Calibration.Length(c)
  {
    hide Valid, Step, Calibration.Left, Calibration.Length;
    var s := Step(c, m, UsbCalibrate);
    StepValid(c, m, UsbCalibrate);
    StartedLeft(c, m);
    CalibrationAdvances(c, s, events);
    AfterValid(c, s, events);
    StayedBefore(c, s, events, Calibrate);
    CallsLeft(c, After(c, s, events));
  }

  /** The call that leaves a calibration without a fault has completed it. */
  lemma CalibrationCompletes(c: Cfg, m: Machine, i: MainIn)
    requires Valid(c, m) && m.run.status == Calibrate
    ensures var n := MainIsrStep(c, m, i);
            n.run.fault == {} && n.run.status != Calibrate ==>
              n.run.status == Idle && n.calib.step == Null && n.pwm.regs == Zeros
  {
    hide Ready, CalibrateIsr, DriveIsr, Guard, Calibration.Next, Calibration.Left, Calibration.Going, CfgOk;
    GuardLaw(m);
    ReadyLaw(c, m, i);
    BranchLaw(c, m, i);
    if Guard(m).run.fault == {} {
      CalibrateLaw(c, Ready(c, m, i), i);
    }
  }

  // ----- Reversal takes a bounded number of ticks ---------------------------------------

  function Ticks(events: seq<Event>): nat
    decreases |events|
  {
    if events == [] then 0 else
      var last := |events| - 1;
      Ticks(events[..last]) + if events[last].Tick? then 1 else 0
  }

  /** Ticks left until a held reversal stops the drive. */
  function TicksLeft(c: Cfg, m: Machine): int
    requires m.traj.maxStep > 0.0
  {
    SpeedSet.CallsLeft(m.traj) * Period(c) - m.spdRegCnt
  }

  /** A motor that has finished its start, running against its command, with the brake off. */
  ghost predicate HeldReversal(c: Cfg, m: Machine) {
    m.run.status == DrvRun && m.start.status == Finish && SpeedSet.Reversing(m.run, c)
  }

  lemma ReversingTick(c: Cfg, m: Machine, t: TickIn)
    requires Valid(c, m) && c.maxStep > 0.0 && c.maxWr >= 0.0 && HeldReversal(c, m)
    ensures var n := TickerStep(c, m, t);
      && n.start == m.start && n.traj.maxStep == c.maxStep
      && (n.run.status == DrvStop || TicksLeft(c, n) <= TicksLeft(c, m) - 1)
  {
    hide BusCheck, PosStep, SpeedSet.CallsLeft, SpeedSet.SlowDown, SpeedSet.StopsNow,
         Startup.Valid, StopControl.Valid, Calibration.Going, CfgOk;
    BusLaw(m);
    SpeedSet.CallsLeftStep(m.traj);
    TimesPeriod(SpeedSet.CallsLeft(SpeedSet.SlowDown(m.traj)), SpeedSet.CallsLeft(m.traj), Period(c));
  }

  lemma TimesPeriod(a: int, b: int, p: int)
    requires p >= 1
    ensures a <= b - 1 ==> a * p <= b * p - p
  {
    assert a <= b - 1 ==> a * p <= (b - 1) * p;
  }

  lemma HeldStep(c: Cfg, m: Machine, e: Event)
    requires Valid(c, m) && c.maxStep > 0.0 && c.maxWr >= 0.0
    requires HeldReversal(c, m) && Step(c, m, e).run.status == DrvRun && SpeedSet.Reversing(Step(c, m, e).run, c)
    ensures var n := Step(c, m, e);
      && HeldReversal(c, n) && n.traj.maxStep == c.maxStep
      && TicksLeft(c, n) <= TicksLeft(c, m) - if e.Tick? then 1 else 0
  {
    hide MainLoopStep, MainIsrStep, TickerStep, Guard, IsFresh, SpeedSet.Reversing, SpeedSet.CallsLeft,
         Startup.Valid, StopControl.Valid, Calibration.Going, CfgOk, Encoded;
    match e
    case MainLoop => MainLoopLaw(c, m);
    case MainInterrupt(i) => MainIsrLaw(c, m, i);
    case Tick(t) => ReversingTick(c, m, t);
    case _ => OtherLaw(c, m, e);
  }

  /** In every state of the run the motor runs against its command. */
  ghost predicate ReversingThroughout(c: Cfg, m: Machine, events: seq<Event>)
    requires CfgOk(c)
    decreases |events|
  {
    var n := After(c, m, events);
    && n.run.status == DrvRun && SpeedSet.Reversing(n.run, c)
    && (events == [] || ReversingThroughout(c, m, events[..|events| - 1]))
  }

  /** With braking off, a reversal that is held stops the drive within that many ticks, whatever
      the other handlers do in between: a run that still has not stopped has seen fewer. */
  lemma {:induction false} ReversalStops(c: Cfg, m: Machine, events: seq<Event>)
    requires Valid(c, m) && CfgOk(c) && c.maxStep > 0.0 && c.maxWr >= 0.0
    requires HeldReversal(c, m) && ReversingThroughout(c, m, events)
    ensures var n := After(c, m, events);
      && HeldReversal(c, n) && n.traj.maxStep == c.maxStep && TicksLeft(c, n) <= TicksLeft(c, m) - Ticks(events)
      && Ticks(events) < SpeedSet.CallsLeft(m.traj) * Period(c)
    decreases |events|
  {
    hide Step, TicksLeft, HeldReversal, SpeedSet.Reversing, SpeedSet.CallsLeft, Valid, CfgOk;
    TicksLeftPositive(c, m);
    if events != [] {
      var last := |events| - 1;
      ReversalStops(c, m, events[..last]);
      AfterValid(c, m, events[..last]);
      HeldStep(c, After(c, m, events[..last]), events[last]);
    }
    AfterValid(c, m, events);
    TicksLeftPositive(c, After(c, m, events));
  }

  /** A motor started by the main loop and then kept running, with a reversal held once its start
      is finished: whenever the reversal was commanded, the ticks after that number of main
      interrupts are bounded by the configuration alone. */
  lemma ReversalStopsFromStart(c: Cfg, m: Machine, starting: seq<Event>, reversing: seq<Event>)
    requires Valid(c, m) && CfgOk(c) && Starts(m) && c.maxStep > 0.0 && c.maxWr >= 0.0
    requires Startup.Climbs(Startup.Cleared(c), c.observer)
    requires Throughout(c, MainLoopStep(c, m), starting, DrvRun) && Interrupts(starting) >= Startup.Length(c)
    requires ReversingThroughout(c, After(c, MainLoopStep(c, m), starting), reversing)
    ensures Ticks(reversing) < ((c.maxWr / c.maxStep).Floor + 2) * Period(c)
  {
    hide Valid, Step, MainLoopStep, SpeedSet.Reversing, SpeedSet.CallsLeft, SpeedSet.MostCalls, Startup.Climbs,
         Startup.Length, Startup.Cleared, Starts, CfgOk;
    StartBound(c, m, starting);
    MainLoopLaw(c, m);
    var s := After(c, MainLoopStep(c, m), starting);
    AfterValid(c, MainLoopStep(c, m), starting);
    ReversingAtFirst(c, s, reversing);
    TicksLeftPositive(c, s);
    ReversalStops(c, s, reversing);
    MostCallsOf(c, s);
    SpeedSet.CallsLeftStep(s.traj);
    AtMostPeriod(SpeedSet.CallsLeft(s.traj), SpeedSet.MostCalls(s.traj), Period(c));
  }

  lemma {:induction false} ReversingAtFirst(c: Cfg, m: Machine, events: seq<Event>)
    requires CfgOk(c) && ReversingThroughout(c, m, events)
    ensures m.run.status == DrvRun && SpeedSet.Reversing(m.run, c)
    decreases |events|
  {
    hide Step, SpeedSet.Reversing, CfgOk;
    if events != [] {
      ReversingAtFirst(c, m, events[..|events| - 1]);
    }
  }

  lemma MostCallsOf(c: Cfg, m: Machine)
    requires Valid(c, m) && c.maxStep > 0.0
    ensures m.traj.maxStep == c.maxStep && m.traj.maxWr == c.maxWr
    ensures SpeedSet.MostCalls(m.traj) == (c.maxWr / c.maxStep).Floor + 2
  {
    hide Startup.Valid, StopControl.Valid, Calibration.Going, CfgOk;
  }

  lemma AtMostPeriod(a: int, b: int, p: int)
    requires a <= b && p >= 1
    ensures a * p <= b * p
  {
  }

  lemma TicksLeftPositive(c: Cfg, m: Machine)
    requires Valid(c, m) && c.maxStep > 0.0 && c.maxWr >= 0.0
    ensures m.traj.maxStep == c.maxStep && TicksLeft(c, m) >= 1
    ensures TicksLeft(c, m) <= SpeedSet.CallsLeft(m.traj) * Period(c)
  {
    hide SpeedSet.CallsLeft, Startup.Valid, StopControl.Valid, Calibration.Going, CfgOk;
    SpeedSet.CallsLeftStep(m.traj);
    AtLeastOncePeriod(SpeedSet.CallsLeft(m.traj), Period(c));
  }

  lemma AtLeastOncePeriod(a: int, p: int)
    requires a >= 1 && p >= 1
    ensures a * p >= p
  {
    assert (a - 1) * p >= 0;
  }

  /** The trajectory survives `Motor_FastStop`: a tick asks for a stop in any status, idle and
      calibration included, exactly when the regulation is due on an enabled ramp that has slowed
      down against its command. The next main interrupt makes the motor idle again. */
  lemma TickStopsIff(c: Cfg, m: Machine, t: TickIn)
    requires Valid(c, m) && m.run.status != DrvStop
    ensures var stopped := m.(run := Stopped(m.run), pwm := Off);
            var due := m.spdRegCnt + 1 >= c.spdRegTime;
      && (TickerStep(c, m, t).run.status == DrvStop <==>
            due && m.run.enSpdTraj && SpeedSet.Reversing(m.run, c) && SpeedSet.StopsNow(m.traj))
      && (TickerStep(c, m, t).run.status == DrvStop <==> TickerStep(c, stopped, t).run.status == DrvStop)
  {
    hide VbusStep, PosStep, SpeedSet.StopsNow, SpeedSet.SlowDown, SpeedSet.Follow,
         Startup.Valid, StopControl.Valid, Calibration.Going, CfgOk;
  }

  // ----- Ranges over every run ----------------------------------------------------------

  /** The speed loop as configured: symmetric, with the gains that cannot wind up. */
  ghost predicate GoodSpeedLoop(p: Regulator) {
    p.kp > 0.0 && 0.0 <= p.ki <= p.kp && Symmetric(p) && Contained(p)
  }

  lemma SpeedLoopStep(c: Cfg, m: Machine, e: Event)
    requires Valid(c, m) && GoodSpeedLoop(c.wrPid) && GoodSpeedLoop(m.wrPid)
    ensures GoodSpeedLoop(Step(c, m, e).wrPid)
  {
    hide Valid, MainLoopStep, MainIsrStep, TickerStep, Guard, Starts, PosStep, GoodSpeedLoop;
    match e
    case MainLoop => MainLoopLaw(c, m);
    case MainInterrupt(i) => MainIsrLaw(c, m, i);
    case Tick(t) =>
      TickLaw(c, m, t);
      var n := TickerStep(c, m, t);
      if n.wrPid != m.wrPid {
        var ref, fbk :| n.wrPid == PosStep(m.wrPid, ref, fbk);
        SpeedLoopKept(m.wrPid, ref, fbk);
      }
    case _ => OtherLaw(c, m, e);
  }

  lemma SpeedLoopKept(p: Regulator, ref: real, fbk: real)
    requires GoodSpeedLoop(p)
    ensures GoodSpeedLoop(PosStep(p, ref, fbk))
  {
    PosContained(p, ref, fbk);
    hide PosRaw;
  }

  /** In no run does the speed loop wind up. */
  lemma {:induction false} SpeedLoopContained(c: Cfg, events: seq<Event>)
    requires CfgOk(c) && GoodSpeedLoop(c.wrPid)
    ensures GoodSpeedLoop(Reached(c, events).wrPid)
    decreases |events|
  {
    hide Valid, Step, GoodSpeedLoop, Boot;
    if events == [] {
      BootValid(c);
    } else {
      var last := |events| - 1;
      SpeedLoopContained(c, events[..last]);
      ReachedValid(c, events[..last]);
      SpeedLoopStep(c, Reached(c, events[..last]), events[last]);
    }
  }

  /** Configured currents and current slopes are not negative. */
  predicate GoodStart(c: Cfg) {
    CfgOk(c) && c.alignIq >= 0.0 && c.forceMaxIq >= 0.0 && c.forceDIq >= 0.0
  }

  /** The most the open loop asks for: either limit with its ramp step. */
  function OpenLoopMost(s: Start): real {
    Numeric.Max(s.alignIq + s.alignDIq, s.forceMaxIq + s.forceDIq)
  }

  /** The open-loop reference: on the d axis only for an encoder, never negative, at most the
      alignment limit and its step while aligning, and never more than the open loop's most. */
  predicate ReferenceInRange(s: Start, o: ObserverType, ref: QD) {
    && 0.0 <= ref.d && 0.0 <= ref.q && (ref.d == 0.0 || ref.q == 0.0) && (ref.d != 0.0 ==> o == UseEncoder)
    && ref.d + ref.q <= (if s.status == StartStatus.Align then s.alignIq + s.alignDIq else OpenLoopMost(s))
  }

  /** While running, the open-loop quantities are in range; the reference is the open loop's from
      the state detection to the end of the start. */
  ghost predicate OpenLoopInRange(c: Cfg, m: Machine) {
    m.run.status == DrvRun ==>
      && Startup.InRange(m.start, m.run) && m.start.forceIq <= OpenLoopMost(m.start)
      && (Detected(m.start.status) && m.start.status != Finish ==> ReferenceInRange(m.start, c.observer, m.run.iqdRef))
  }

  /** One call of the start sequence, on the record and the reference. */
  lemma ReferenceStep(s: Start, o: ObserverType, r: Run, theta: real)
    requires Startup.Valid(s, o) && Startup.InRange(s, r) && s.forceIq <= OpenLoopMost(s)
    requires Detected(s.status) && s.status != Finish ==> ReferenceInRange(s, o, r.iqdRef)
    ensures var n := Startup.Next(s, o);
            var ref := Startup.ReferenceAfter(s, n, o, r.iqdRef);
      && Startup.InRange(n, Startup.Drives(s, n, o, r, theta)) && n.forceIq <= OpenLoopMost(n)
      && (Detected(n.status) && n.status != Finish ==> ReferenceInRange(n, o, ref))
      && (Startup.OpenLoop(s.status) ==>
            && ref == (if s.status == StartStatus.Align && o == UseEncoder then QD(n.forceIq, 0.0)
                       else QD(0.0, n.forceIq))
            && 0.0 <= n.forceIq <= Startup.CurrentLimit(s)
            && 0.0 <= Startup.Drives(s, n, o, r, theta).drvAngle < Trig.TwoPi)
  {
    hide Startup.Next, Startup.InRange, Startup.Drives, Startup.CurrentLimit, Startup.ReferenceAfter;
    Startup.OpenLoopRange(s, o, r, theta);
    Startup.ReferenceIs(s, o, r, theta);
    LimitsKept(s, o);
    ReferenceCases(s, o, r);
  }

  lemma LimitsKept(s: Start, o: ObserverType)
    requires Startup.Valid(s, o)
    ensures var n := Startup.Next(s, o);
      && n.alignIq == s.alignIq && n.alignDIq == s.alignDIq && n.forceMaxIq == s.forceMaxIq && n.forceDIq == s.forceDIq
      && OpenLoopMost(n) == OpenLoopMost(s) && (!Startup.OpenLoop(s.status) ==> n.forceIq == s.forceIq)
      && (n.status == StartStatus.Align ==> s.status == StartStatus.Align || s.status == StateDetect)
      && (n.status == ForceDrive ==> s.status == StartStatus.Align || s.status == ForceDrive)
  {
    hide Startup.Ramp;
  }

  lemma ReferenceCases(s: Start, o: ObserverType, r: Run)
    requires Startup.Valid(s, o) && Startup.InRange(s, r)
    ensures var n := Startup.Next(s, o);
      && Startup.CurrentLimit(s) <= OpenLoopMost(s) && 0.0 <= s.alignIq + s.alignDIq <= OpenLoopMost(s)
      && (s.status == StateDetect ==> Startup.ReferenceAfter(s, n, o, r.iqdRef) == QD(0.0, 0.0))
      && (Detected(n.status) && n.status != Finish ==> s.status == StateDetect || Startup.OpenLoop(s.status))
      && (s.status == StartStatus.Align ==> Startup.CurrentLimit(s) == s.alignIq + s.alignDIq)
  {
    hide Startup.AlignNext, Startup.Ramp;
  }

  /** A main interrupt keeps the ranges; in open loop it sets the angle and the reference, on the
      axis of the observer and at most one step past the limit of its own state. */
  lemma RunningInRange(c: Cfg, m: Machine, i: MainIn)
    requires Valid(c, m) && OpenLoopInRange(c, m)
    ensures var n := MainIsrStep(c, m, i);
      && OpenLoopInRange(c, n)
      && (n.run.status == DrvRun && Startup.OpenLoop(m.start.status) ==>
            && n.run.iqdRef == (if m.start.status == StartStatus.Align && c.observer == UseEncoder
                                then QD(n.start.forceIq, 0.0) else QD(0.0, n.start.forceIq))
            && 0.0 <= n.start.forceIq <= Startup.CurrentLimit(m.start)
            && 0.0 <= n.run.drvAngle < Trig.TwoPi)
  {
    hide Ready, CalibrateIsr, DriveIsr, Startup.Next, Startup.Valid, StopControl.Valid, Guard, ReferenceInRange,
         OpenLoopMost, Startup.AngleAfter, Startup.ReferenceAfter, Startup.Enables, Startup.CurrentLimit, Modulated,
         Calibration.Next, Calibration.Going, Calibration.Left, CfgOk, Encoded;
    GuardLaw(m);
    ReadyLaw(c, m, i);
    BranchLaw(c, m, i);
    MainIsrLaw(c, m, i);
    var s := Ready(c, m, i);
    if s.run.status == DrvRun {
      RunLaw(c, s, i);
      ReferenceStep(m.start, c.observer, s.run, DriveTheta(c, s, i));
    }
  }

  lemma OpenLoopStep(c: Cfg, m: Machine, e: Event)
    requires Valid(c, m) && OpenLoopInRange(c, m) && GoodStart(c)
    ensures OpenLoopInRange(c, Step(c, m, e))
  {
    hide MainLoopStep, MainIsrStep, TickerStep, Guard, Startup.Cleared, ReferenceInRange, OpenLoopMost, Encoded,
         Startup.Valid, StopControl.Valid, Calibration.Going;
    match e
    case MainLoop =>
      MainLoopLaw(c, m);
      Startup.ClearedInRange(c, MainLoopStep(c, m).run);
      ClearedMost(c);
    case MainInterrupt(i) => RunningInRange(c, m, i);
    case Tick(t) => TickLaw(c, m, t);
    case _ => OtherLaw(c, m, e);
  }

  lemma ClearedMost(c: Cfg)
    requires GoodStart(c)
    ensures var s := Startup.Cleared(c); s.status == Initialize && s.forceIq == 0.0 && 0.0 <= OpenLoopMost(s)
  {
    Startup.ClearedInRange(c, Zeroed(c).run);
  }

  lemma {:induction false} OpenLoopKept(c: Cfg, events: seq<Event>)
    requires GoodStart(c)
    ensures OpenLoopInRange(c, Reached(c, events))
    decreases |events|
  {
    hide Valid, Step, Boot, OpenLoopInRange, CfgOk;
    if events == [] {
      BootValid(c);
      IdleInRange(c, Boot(c));
    } else {
      var last := |events| - 1;
      OpenLoopKept(c, events[..last]);
      ReachedValid(c, events[..last]);
      OpenLoopStep(c, Reached(c, events[..last]), events[last]);
    }
  }

  lemma IdleInRange(c: Cfg, m: Machine)
    requires m.run.status != DrvRun
    ensures OpenLoopInRange(c, m)
  {
  }

  /** In every run: while the start is in open loop, whatever happens between main interrupts,
      angle and reference are in range; and the interrupt that makes an open-loop call sets the
      reference to the ramp, at most one step past the limit of the state it was in. */
  lemma OpenLoopBounded(c: Cfg, events: seq<Event>, i: MainIn)
    requires GoodStart(c)
    ensures var m, n := Reached(c, events), Reached(c, events + [MainInterrupt(i)]);
      && OpenLoopInRange(c, m)
      && (n.run.status == DrvRun && Startup.OpenLoop(m.start.status) ==>
            && n.run.iqdRef == (if m.start.status == StartStatus.Align && c.observer == UseEncoder
                                then QD(n.start.forceIq, 0.0) else QD(0.0, n.start.forceIq))
            && 0.0 <= n.start.forceIq <= Startup.CurrentLimit(m.start)
            && 0.0 <= n.run.drvAngle < Trig.TwoPi)
  {
    hide Reached, Valid, Guard, MainIsrStep, OpenLoopInRange, Startup.CurrentLimit;
    ReachedValid(c, events);
    OpenLoopKept(c, events);
    RunningInRange(c, Reached(c, events), i);
    ReachedSnoc(c, events, MainInterrupt(i));
  }
}
