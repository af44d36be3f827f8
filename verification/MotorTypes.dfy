/** The structures the lifecycle handlers share, as the headers declare them, and the globals of
    motor_control.c. */
module MotorTypes {
  import opened Protection
  import opened SpaceVector
  import opened PiCalc
  import opened Transform
  import Encoder

  datatype Status = Idle | DrvRun | DrvStop | Calibrate

  datatype Dir = Ccw | Cw

  /** `i32ObserverType`. */
  datatype ObserverType = UseEncoder | SmoObserver | FluxObserver | HfiObserver | HfiSmoObserver | HfiFluxObserver

  /** The types above `FLUX_OBSERVER`, which need no open-loop start. */
  predicate IsHfi(o: ObserverType) {
    o.HfiObserver? || o.HfiSmoObserver? || o.HfiFluxObserver?
  }

  /** The fields of `MotorRunPara_t` that the handlers pass to each other. */
  datatype Run = Run(
    status: Status, fault: FaultWord, sysRdy: bool, cmdDir: Dir, tgtDir: Dir,
    enSpdTraj: bool, enSpdPid: bool, enCurrentPid: bool, enBreak: bool,
    cmdWr: real, tgtWr: real, realTimeWr: real, vbus: real, avgVbus: real, drvAngle: real,
    iuvw: Currents, iab: AB, iqd: QD, iqdRef: QD, uqdRef: QD, uab: AB)

  /** The PWM channels' enable, the three compare registers, and the counts that the last
      modulation left in `MotorSvpwm`. */
  datatype Pwm = Pwm(enabled: bool, regs: Three<int>, counts: Three<int>)

  const Zeros := Three(0, 0, 0)
  const Off := Pwm(false, Zeros, Zeros)

  /** `CmdSpeedSet_t`. */
  datatype Cmd = Cmd(cmdRpm: int, preCmdRpm: int)

  /** `SpeedCtrl_t`. */
  datatype Traj = Traj(tgtWr: real, maxStep: real, maxWr: real, output: real, wrISum: real)

  datatype StartStatus = Initialize | BscCharge | Ipd | Align | StateDetect | HeadWindFocBrake
                       | HeadWindShortBrake | HeadWindForceDrive | CLStart | ForceDrive | VfDrive
                       | SoftSwitch | Finish

  /** `Startup_t`; `align` is `u8Status_Align`. */
  datatype Start = Start(
    status: StartStatus, align: int, a1: int, a2: int, a3: int, forceIq: real, forceWr: real,
    alignIq: real, alignDIq: real, alignDTheta: real,
    forceMaxIq: real, forceDIq: real, forceMaxWr: real, forceAcc: real, ts: real)

  datatype StopStatus = StopInitialize | DecCurrent | ElecBrake | ShortBrake | StopFinish

  /** `StopCtrl_t`. */
  datatype Stop = Stop(status: StopStatus, enBrakeStop: bool, shortBrake: int, timerCnt: int)

  datatype CalibStep = Null | RStart | RLoop | REnd | LStart | LLoop | LEnd | PpStart | PpLoop | PpEnd

  /** `CalibrationCtrl_t`, without the results that nothing reads back. */
  datatype Calib = Calib(
    step: CalibStep, ts: real, current: real, voltage: real, resistance: real,
    outputType: int, loopCount: int, testVoltage: real, phaseSet: real)

  /** What the handlers take from the configuration: `root3` stands for the square root of 3,
      `table` for the sine table and `peak` for half the PWM period in timer cycles. */
  datatype Cfg = Cfg(
    observer: ObserverType, breakEnable: bool, minRpm: int, rpm2Wr: real, spdRegTime: int,
    maxStep: real, maxWr: real,
    align1: int, align2: int, align3: int, alignIq: real, alignTheta: real,
    forceMaxIq: real, forceDIq: real, forceMaxWr: real, forceAcc: real,
    wrPid: Regulator, idPid: Regulator, iqPid: Regulator, vbus: Vbus, oc: Oc,
    peak: int, maxDuty: real, root3: real, table: seq<real>, encoder: Encoder.Gains,
    feedforward: bool, ls: real, lambdaF: real,
    carrier: int, calibCurrent: real, calibVoltage: real)

  /** A positive carrier, a 16-bit period and a non-negative duty ratio. */
  predicate CfgOk(c: Cfg) {
    && c.carrier > 0 && 0 < c.peak <= 0xffff && c.maxDuty >= 0.0
    && c.root3 > 0.0 && c.root3 * c.root3 == 3.0 && |c.table| == 513
  }

  /** Everything the handlers keep between calls. */
  datatype Machine = Machine(
    run: Run, pwm: Pwm, cmd: Cmd, traj: Traj, start: Start, stop: Stop, calib: Calib,
    wrPid: Regulator, idPid: Regulator, iqPid: Regulator, vbus: Vbus, oc: Oc, enc: Encoder.Enc,
    spdRegCnt: int)

  class Motor {
    const cfg: Cfg
    var run: Run
    var pwm: Pwm
    var cmd: Cmd
    var traj: Traj
    var start: Start
    var stop: Stop
    var calib: Calib
    const wrPid: PIControl
    const idPid: PIControl
    const iqPid: PIControl
    const vbus: ProtectVbus
    const oc: ProtectOC
    const enc: Encoder.Sensor
    const svpwm: Svpwm
    var spdRegCnt: int

    /** The regulators are three, and the modulator is set up for the configured period. */
    ghost predicate Valid()
      reads svpwm
    {
      && wrPid != idPid && idPid != iqPid && wrPid != iqPid
      && CfgOk(cfg) && enc.gains == cfg.encoder
      && svpwm.peakCnt == cfg.peak && svpwm.maxDutyCnt == DutyCap(cfg.peak, cfg.maxDuty)
    }

    ghost function Repr(): set<object> {
      {this, wrPid, idPid, iqPid, vbus, oc, enc, svpwm}
    }

    function Value(): Machine
      reads Repr()
    {
      Machine(run, pwm, cmd, traj, start, stop, calib, wrPid.Value(), idPid.Value(), iqPid.Value(),
              vbus.Value(), oc.Value(), enc.Value(), spdRegCnt)
    }

    /** Static storage: zeros, and the thresholds of the configuration. */
    constructor (cfg: Cfg)
      requires CfgOk(cfg)
      ensures Valid() && fresh(Repr()) && this.cfg == cfg && Value() == Zeroed(cfg)
    {
      this.cfg := cfg;
      var z := Zeroed(cfg);
      run, pwm, cmd, traj, start, stop, calib := z.run, z.pwm, z.cmd, z.traj, z.start, z.stop, z.calib;
      spdRegCnt := z.spdRegCnt;
      var w := new PIControl(z.wrPid);
      var d := new PIControl(z.idPid);
      var q := new PIControl(z.iqPid);
      var v := new ProtectVbus(z.vbus);
      var o := new ProtectOC(z.oc);
      var e := new Encoder.Sensor(cfg.encoder);
      var p := new Svpwm();
      p.Init(cfg.peak, cfg.maxDuty);
      wrPid, idPid, iqPid, vbus, oc, enc, svpwm := w, d, q, v, o, e, p;
    }
  }

  const ZeroRegulator := Regulator(0.0, 0.0, 0.0, 0.0, 0.0, 0.0, 0.0, 0.0)

  function Zeroed(cfg: Cfg): Machine {
    Machine(
      Run(Idle, {}, false, Ccw, Ccw, false, false, false, false, 0.0, 0.0, 0.0, 0.0, 0.0, 0.0,
          Currents(0.0, 0.0, 0.0), AB(0.0, 0.0), QD(0.0, 0.0), QD(0.0, 0.0), QD(0.0, 0.0), AB(0.0, 0.0)),
      Off, Cmd(0, 0), Traj(0.0, 0.0, 0.0, 0.0, 0.0),
      Start(Initialize, 0, 0, 0, 0, 0.0, 0.0, 0.0, 0.0, 0.0, 0.0, 0.0, 0.0, 0.0, 0.0),
      Stop(StopInitialize, false, 0, 0), Calib(Null, 0.0, 0.0, 0.0, 0.0, 0, 0, 0.0, 0.0),
      ZeroRegulator, ZeroRegulator, ZeroRegulator,
      Unfilled(cfg.vbus), cfg.oc.(cnt := 0), Encoder.Zero, 0)
  }

  // ----- `Motor_FastStop` ---------------------------------------------------------------

  /** Note what is kept: the speed trajectory stays enabled. */
  function Stopped(r: Run): Run {
    r.(status := Idle, enSpdPid := false, enCurrentPid := false, enBreak := false,
       realTimeWr := 0.0, uab := AB(0.0, 0.0), iab := AB(0.0, 0.0), iqd := QD(0.0, 0.0), iqdRef := QD(0.0, 0.0))
  }

  method FastStop(m: Motor)
    modifies m`run, m`pwm
    ensures m.run == Stopped(old(m.run)) && m.pwm == Off
  {
    m.pwm := m.pwm.(enabled := false);
    m.pwm := m.pwm.(regs := Zeros);
    m.run := m.run.(status := Idle);
    m.run := m.run.(enSpdPid := false);
    m.run := m.run.(enCurrentPid := false);
    m.run := m.run.(enBreak := false);
    m.run := m.run.(realTimeWr := 0.0);
    m.run := m.run.(uab := AB(0.0, 0.0));
    m.run := m.run.(iab := AB(0.0, 0.0));
    m.run := m.run.(iqd := QD(0.0, 0.0));
    m.run := m.run.(iqdRef := QD(0.0, 0.0));
    m.pwm := m.pwm.(counts := Zeros);
  }
}
