/** What the running motor is driven with: the angle it is driven at, the voltage its current loop
    demands, the current its speed loop asks for, and how a zero command ends it. */
module Control {
  import opened Numeric
  import opened Protection
  import opened SpaceVector
  import opened PiCalc
  import opened Transform
  import opened MotorTypes
  import opened Handlers
  import opened Lifecycle
  import Startup
  import StopControl
  import Calibration
  import SpeedSet
  import Encoder
  import Trig

  // ----- A running interrupt ------------------------------------------------------------

  /** The angle and the speed the closed loop uses: the encoder's, its phase normalised, or those of
      the other observer. */
  function EstimatedAngle(c: Cfg, m: Machine, i: MainIn): real {
    if c.observer == UseEncoder then
      Trig.Normal(Encoder.Step(m.enc, c.encoder, i.sample, m.run.tgtDir == Ccw).phase)
    else i.theta
  }

  function EstimatedSpeed(c: Cfg, m: Machine, i: MainIn): real {
    if c.observer == UseEncoder then Encoder.Step(m.enc, c.encoder, i.sample, m.run.tgtDir == Ccw).vel else i.wr
  }

  function MeasuredSpeed(c: Cfg, m: Machine, i: MainIn): real {
    if c.observer == UseEncoder then Encoder.Step(m.enc, c.encoder, i.sample, m.run.tgtDir == Ccw).phaseVel
    else i.realWr
  }

  /** After the call of the start sequence, before the regulators. */
  function Sequenced(c: Cfg, m: Machine, i: MainIn): Machine
    requires CfgOk(c)
  {
    var s := Ready(c, m, i);
    Starting(c, s.(run := s.run.(realTimeWr := if c.observer == UseEncoder then s.enc.phaseVel else i.realWr)), i)
  }

  lemma EncodedIs(c: Cfg, m: Machine, i: MainIn)
    ensures var e := Encoded(c, m, i);
      && (c.observer == UseEncoder ==>
            && e.phase == EstimatedAngle(c, m, i) && e.vel == EstimatedSpeed(c, m, i)
            && e.phaseVel == MeasuredSpeed(c, m, i))
  {
    hide Encoder.Step, Trig.Normal;
  }

  /** One call of the start sequence on the parts that the regulators read. */
  lemma StartingLaw(c: Cfg, s: Machine, i: MainIn)
    requires Startup.Valid(s.start, c.observer) && s.run.status == DrvRun && Enabled(s)
    ensures var b := Starting(c, s, i);
            var wr := if c.observer == UseEncoder then s.enc.vel else i.wr;
      && b.start == Startup.Next(s.start, c.observer) && b.start.status != VfDrive
      && (b.run.enCurrentPid <==> Detected(b.start.status))
      && b.run.drvAngle == Startup.AngleAfter(s.start, b.start, c.observer, s.run.drvAngle, DriveTheta(c, s, i))
      && b.run.iqdRef == Startup.ReferenceAfter(s.start, b.start, c.observer, s.run.iqdRef)
      && b.run.iuvw == s.run.iuvw && b.run.iab == s.run.iab && b.run.tgtDir == s.run.tgtDir
      && b.run.realTimeWr == s.run.realTimeWr
      && b.idPid == s.idPid && b.iqPid == s.iqPid
      && b.traj == Startup.Handover(s.start, c.observer, s.traj, s.run, wr)
      && b.enc.offset == Startup.OffsetAfter(s.start, b.start, s.enc.offset, s.enc.phase)
      && b.pwm == s.pwm.(enabled := s.pwm.enabled || s.start.status == BscCharge)
  {
    hide Startup.Next, Startup.Valid, Startup.AngleAfter, Startup.ReferenceAfter, Startup.OffsetAfter, Startup.Enables,
         Startup.Handover;
    StartupEnables(s.start, c.observer, s.run);
    EnablesKeep(s.start, s.run);
    Startup.NextValid(s.start, c.observer);
    NotVfDrive(Startup.Next(s.start, c.observer), c.observer);
  }

  lemma EnablesKeep(s: Start, r: Run)
    ensures var q := Startup.Enables(s, r);
            q == r.(enSpdPid := q.enSpdPid, enSpdTraj := q.enSpdTraj, enBreak := q.enBreak,
                    enCurrentPid := q.enCurrentPid)
  {
  }

  /** What the start sequence finds in a running interrupt. */
  lemma ReadyIs(c: Cfg, m: Machine, i: MainIn)
    requires Valid(c, m) && CfgOk(c) && MainIsrStep(c, m, i).run.status == DrvRun
    ensures m.run.status == DrvRun && MainIsrStep(c, m, i) == Output(Regulate(c, Sequenced(c, m, i), i))
    ensures var s, iuvw := Ready(c, m, i), Phases(m.run.tgtDir, i.adc);
      && s == m.(oc := s.oc, run := s.run, enc := Encoded(c, m, i))
      && s.run == m.run.(fault := {}, vbus := i.vbus, iuvw := iuvw, iab := s.run.iab)
  {
    hide Valid, Guard, Sampled, Encoded, CalibrateIsr, Starting, Stopping, Regulate, Ready, CfgOk;
    RunningOnly(c, m, i);
    GuardLaw(m);
    ReadyLaw(c, m, i);
    BranchLaw(c, m, i);
    EncodedDirection(c, m, i);
  }

  lemma RunningOnly(c: Cfg, m: Machine, i: MainIn)
    requires Valid(c, m) && CfgOk(c) && MainIsrStep(c, m, i).run.status == DrvRun
    ensures m.run.status == DrvRun && Guard(m).run.fault == {}
  {
    hide Valid, MainIsrStep, Guard, CfgOk;
    MainIsrLaw(c, m, i);
  }

  lemma OffsetKept(c: Cfg, m: Machine, i: MainIn)
    ensures Encoded(c, m, i).offset == m.enc.offset
  {
    hide Encoder.Wrap, Encoder.WrapInt, Scale, Trig.Normal, Encoder.OffInterp, Encoder.Interp, Encoder.Snapped,
         Encoder.PllPos, Encoder.PllVel, Encoder.PllError;
  }

  lemma RunningIs(c: Cfg, m: Machine, i: MainIn)
    requires Valid(c, m) && CfgOk(c) && MainIsrStep(c, m, i).run.status == DrvRun
    ensures m.run.status == DrvRun && MainIsrStep(c, m, i) == Output(Regulate(c, Sequenced(c, m, i), i))
    ensures var b := Sequenced(c, m, i);
      && b.start == Startup.Next(m.start, c.observer) && b.start.status != VfDrive
      && (b.run.enCurrentPid <==> Detected(b.start.status))
      && b.run.drvAngle ==
           Startup.AngleAfter(m.start, b.start, c.observer, m.run.drvAngle, EstimatedAngle(c, m, i))
      && b.run.iqdRef == Startup.ReferenceAfter(m.start, b.start, c.observer, m.run.iqdRef)
      && b.run.iuvw == Phases(m.run.tgtDir, i.adc) && b.run.iab == Ready(c, m, i).run.iab
      && b.run.tgtDir == m.run.tgtDir && b.run.realTimeWr == MeasuredSpeed(c, m, i)
      && b.idPid == m.idPid && b.iqPid == m.iqPid
      && b.traj == Startup.Handover(m.start, c.observer, m.traj, m.run, EstimatedSpeed(c, m, i))
      && b.enc.offset == Startup.OffsetAfter(m.start, b.start, m.enc.offset, Encoded(c, m, i).phase)
      && b.pwm == m.pwm.(enabled := m.pwm.enabled || m.start.status == BscCharge)
  {
    hide MainIsrStep, Regulate, Output, Encoded, Ready, Starting, Startup.Next, Startup.Valid, StopControl.Valid,
         Calibration.Going, Startup.AngleAfter, Startup.ReferenceAfter, Startup.OffsetAfter,
         CfgOk, EstimatedAngle, EstimatedSpeed, MeasuredSpeed, SpeedSet.Coherent;
    ReadyIs(c, m, i);
    EncodedIs(c, m, i);
    OffsetKept(c, m, i);
    var s := Ready(c, m, i);
    ObserverOnly(c, m, i);
    StartingLaw(c, s.(run := s.run.(realTimeWr := if c.observer == UseEncoder then s.enc.phaseVel else i.realWr)), i);
  }

  lemma ObserverOnly(c: Cfg, m: Machine, i: MainIn)
    ensures c.observer != UseEncoder ==>
              && EstimatedAngle(c, m, i) == i.theta && EstimatedSpeed(c, m, i) == i.wr
              && MeasuredSpeed(c, m, i) == i.realWr
  {
  }

  // ----- The voltage that is demanded ---------------------------------------------------

  /** One call of a current regulator on an error, written out: the error is cut; the output moves
      by the proportional gain on its change and the integral gain on it, and is cut. */
  ghost predicate Regulated(p: Regulator, q: Regulator, err: real) {
    && IsCut(q.errl, err, -p.absErrMax, p.absErrMax)
    && IsCut(q.output, p.output + Scale(p.kp, q.errl - p.errl) + Scale(p.ki, q.errl), p.outMin, p.outMax)
    && q == p.(output := q.output, errl := q.errl)
  }

  /** The regulators, the voltage they demand and its way into the stator frame, in one place. */
  lemma RegulateIs(c: Cfg, b: Machine, i: MainIn)
    requires CfgOk(c) && b.run.enCurrentPid
    ensures var n, r := Regulate(c, b, i), Parked(c, b.run);
      && r.iqd == Park(b.run.iab, Sn(c, b.run.drvAngle), Cs(c, b.run.drvAngle))
      && n.run == b.run.(iqd := r.iqd, uqdRef := n.run.uqdRef, uab := n.run.uab)
      && n.iqPid == IncStep(b.iqPid, b.run.iqdRef.q, Feedback(r, i.hfi).q)
      && n.idPid == IncStep(b.idPid, b.run.iqdRef.d, Feedback(r, i.hfi).d)
      && n.run.uqdRef == Demand(c, r, i.hfi, n.idPid.output, n.iqPid.output)
      && n.run.uab == Ipark(n.run.uqdRef, Sn(c, b.run.drvAngle), Cs(c, b.run.drvAngle))
      && n == b.(run := n.run, pwm := n.pwm, iqPid := n.iqPid, idPid := n.idPid)
  {
    hide Sn, Cs, Ipark, Park, IncStep, Demand, Modulated, CfgOk, Feedback;
  }

  /** The stator voltage is the demanded voltage turned forward, the d axis along the angle and the q
      axis a quarter turn ahead, and the measured currents are turned back. */
  ghost predicate Turns(r: Run, sn: real, cs: real) {
    && r.uab == AB(r.uqdRef.d * cs - r.uqdRef.q * sn, r.uqdRef.d * sn + r.uqdRef.q * cs)
    && r.iqd == QD(r.iab.alpha * cs + r.iab.beta * sn, r.iab.beta * cs - r.iab.alpha * sn)
  }

  /** The two components of the current give both phase currents back. */
  ghost predicate Senses(r: Run, root3: real) {
    r.iab.alpha == r.iuvw.u && (root3 * r.iab.beta - r.iab.alpha) / 2.0 == r.iuvw.v
  }

  /** In every running interrupt with the current loop on, voltage and currents are turned by sine and
      cosine of the drive angle. Where the squares of the two add to one, each transform undoes the
      other. */
  lemma FrameLaw(c: Cfg, m: Machine, i: MainIn)
    requires Valid(c, m) && CfgOk(c)
    ensures var n := MainIsrStep(c, m, i);
            var sn, cs := Trig.SinF32(c.table, n.run.drvAngle), Trig.CosF32(c.table, n.run.drvAngle);
      n.run.status == DrvRun && n.run.enCurrentPid ==>
        && Turns(n.run, sn, cs) && Senses(n.run, c.root3)
        && (Sq(sn) + Sq(cs) == 1.0 ==> Park(n.run.uab, sn, cs) == n.run.uqdRef && Ipark(n.run.iqd, sn, cs) == n.run.iab)
  {
    hide MainIsrStep, Sequenced, Valid, Trig.SinF32, Trig.CosF32, Park, Ipark, Ready, IncStep, Demand, Feedback,
         MeasuredSpeed, Turns, Senses, Sq;
    var n := MainIsrStep(c, m, i);
    if n.run.status == DrvRun && n.run.enCurrentPid {
      LoopOn(c, m, i);
      SensesPhases(c, m, i);
      TurnsFrame(n.run, Sn(c, n.run.drvAngle), Cs(c, n.run.drvAngle));
      SensesReads(n.run, Ready(c, m, i).run, c.root3);
    }
  }

  lemma TurnsFrame(r: Run, sn: real, cs: real)
    requires r.uab == Ipark(r.uqdRef, sn, cs) && r.iqd == Park(r.iab, sn, cs)
    ensures Turns(r, sn, cs)
    ensures Sq(sn) + Sq(cs) == 1.0 ==> Park(r.uab, sn, cs) == r.uqdRef && Ipark(r.iqd, sn, cs) == r.iab
  {
    if Sq(sn) + Sq(cs) == 1.0 {
      ParkIpark(r.uqdRef, sn, cs);
      IparkPark(r.iab, sn, cs);
    }
  }

  lemma SensesPhases(c: Cfg, m: Machine, i: MainIn)
    requires CfgOk(c)
    ensures Ready(c, m, i).run.iuvw == Phases(m.run.tgtDir, i.adc) && Senses(Ready(c, m, i).run, c.root3)
  {
    hide Ready, Guard, Encoded, CfgOk;
    ReadyLaw(c, m, i);
  }

  lemma SensesReads(r: Run, q: Run, root3: real)
    requires r.iab == q.iab && r.iuvw == q.iuvw
    ensures Senses(r, root3) <==> Senses(q, root3)
  {
  }

  /** The running interrupt with the current loop on, in terms of the functions of the handler. */
  lemma LoopOn(c: Cfg, m: Machine, i: MainIn)
    requires Valid(c, m) && CfgOk(c)
    requires var n := MainIsrStep(c, m, i); n.run.status == DrvRun && n.run.enCurrentPid
    ensures var n, b := MainIsrStep(c, m, i), Sequenced(c, m, i);
      && n.run == b.run.(iqd := n.run.iqd, uqdRef := n.run.uqdRef, uab := n.run.uab)
      && n.run.iqd == Park(n.run.iab, Sn(c, n.run.drvAngle), Cs(c, n.run.drvAngle))
      && n.run.uab == Ipark(n.run.uqdRef, Sn(c, n.run.drvAngle), Cs(c, n.run.drvAngle))
      && n.iqPid == IncStep(m.iqPid, n.run.iqdRef.q, Feedback(n.run, i.hfi).q)
      && n.idPid == IncStep(m.idPid, n.run.iqdRef.d, Feedback(n.run, i.hfi).d)
      && n.run.uqdRef == Demand(c, n.run, i.hfi, n.idPid.output, n.iqPid.output)
      && n.run.iab == Ready(c, m, i).run.iab && n.run.iuvw == Phases(m.run.tgtDir, i.adc)
      && n.run.realTimeWr == MeasuredSpeed(c, m, i)
      && n.pwm.regs == LegOrder(m.run.tgtDir, n.pwm.counts)
  {
    hide MainIsrStep, Sequenced, Regulate, Valid, CfgOk, Sn, Cs, Park, Ipark, IncStep, MeasuredSpeed, Ready;
    RunningIs(c, m, i);
    var b := Sequenced(c, m, i);
    RegulatorsOnly(c, b, i);
    RegulateIs(c, b, i);
    DemandReads(c, Parked(c, b.run), MainIsrStep(c, m, i).run, i.hfi,
                MainIsrStep(c, m, i).idPid.output, MainIsrStep(c, m, i).iqPid.output);
  }

  lemma RegulatorsOnly(c: Cfg, b: Machine, i: MainIn)
    requires CfgOk(c) && b.start.status != VfDrive
    ensures Regulate(c, b, i).run.enCurrentPid == b.run.enCurrentPid
  {
    RegulateLaw(c, b, i);
    hide Regulate, CfgOk;
  }

  lemma DemandReads(c: Cfg, r: Run, q: Run, hfi: Hfi, ud: real, uq: real)
    requires r.iqd == q.iqd && r.realTimeWr == q.realTimeWr
    ensures Demand(c, r, hfi, ud, uq) == Demand(c, q, hfi, ud, uq) && Feedback(r, hfi) == Feedback(q, hfi)
  {
  }

  /** What decoupling and back-EMF add to the two voltages: minus the speed times the inductance times
      the q current, and the speed times the inductance times the d current and the flux. */
  function Feedforward(c: Cfg, r: Run): QD {
    if !c.feedforward then QD(0.0, 0.0)
    else QD(-(r.realTimeWr * (c.ls * r.iqd.q)), r.realTimeWr * (c.ls * r.iqd.d) + r.realTimeWr * c.lambdaF)
  }

  /** In every running interrupt with the current loop on, both regulators work on reference minus
      measured current, and the demanded voltage is their outputs with the feedforward. With
      high-frequency injection they work on the base currents instead, and the injected voltage
      goes on the d axis, along or against it. */
  lemma CurrentLaw(c: Cfg, m: Machine, i: MainIn)
    requires Valid(c, m) && CfgOk(c) && m.idPid.absErrMax >= 0.0 && m.iqPid.absErrMax >= 0.0
    ensures var n := MainIsrStep(c, m, i);
            var u, ref, ff := n.run.uqdRef, n.run.iqdRef, Feedforward(c, n.run);
      n.run.status == DrvRun && n.run.enCurrentPid ==>
        match i.hfi
        case HfiOff =>
          && Regulated(m.iqPid, n.iqPid, ref.q - n.run.iqd.q) && Regulated(m.idPid, n.idPid, ref.d - n.run.iqd.d)
          && u == QD(n.idPid.output + ff.d, n.iqPid.output + ff.q)
        case HfiOn(forward, uin, idBase, iqBase) =>
          && Regulated(m.iqPid, n.iqPid, ref.q - iqBase) && Regulated(m.idPid, n.idPid, ref.d - idBase)
          && u == QD(n.idPid.output + (if forward then uin else -uin), n.iqPid.output)
  {
    hide MainIsrStep, Sequenced, Valid, CfgOk, Sn, Cs, Park, Ipark, Ready, IncStep, Demand, MeasuredSpeed, Regulated,
         Feedforward;
    var n := MainIsrStep(c, m, i);
    if n.run.status == DrvRun && n.run.enCurrentPid {
      LoopOn(c, m, i);
      RegulatedBy(m.iqPid, n.run.iqdRef.q, Feedback(n.run, i.hfi).q);
      RegulatedBy(m.idPid, n.run.iqdRef.d, Feedback(n.run, i.hfi).d);
      DemandIs(c, n.run, i.hfi, n.idPid.output, n.iqPid.output);
    }
  }

  lemma RegulatedBy(p: Regulator, ref: real, fbk: real)
    requires p.absErrMax >= 0.0
    ensures Regulated(p, IncStep(p, ref, fbk), ref - fbk)
  {
    IncLaw(p, ref, fbk);
    hide IncStep, Scale, IsCut;
  }

  lemma DemandIs(c: Cfg, r: Run, hfi: Hfi, ud: real, uq: real)
    ensures Demand(c, r, hfi, ud, uq) ==
              match hfi
              case HfiOff => QD(ud + Feedforward(c, r).d, uq + Feedforward(c, r).q)
              case HfiOn(forward, uin, _, _) => QD(ud + (if forward then uin else -uin), uq)
  {
    ScaleIs(-1.0 * r.realTimeWr, c.ls, r.iqd.q);
    ScaleIs(r.realTimeWr, c.ls, r.iqd.d);
    ScaleIs(r.realTimeWr, 1.0, c.lambdaF);
    hide Scale;
  }

  lemma ScaleIs(w: real, k: real, x: real)
    ensures Scale(w, Scale(k, x)) == w * (k * x) && (-1.0 * w) * (k * x) == -(w * (k * x)) && Scale(w, x) == w * x
  {
  }

  /** Any other interrupt leaves both regulators alone. */
  lemma RegulatorsKept(c: Cfg, m: Machine, i: MainIn)
    requires Valid(c, m) && CfgOk(c)
    ensures var n := MainIsrStep(c, m, i);
            !(n.run.status == DrvRun && n.run.enCurrentPid) ==> n.idPid == m.idPid && n.iqPid == m.iqPid
  {
    hide MainIsrStep, CfgOk, Modulated, Guard, Encoded, Ready, CalibrateIsr, DriveIsr, Sequenced, Calibration.Next,
         Calibration.Left, Calibration.Going, Startup.Valid, StopControl.Valid, SpeedSet.Coherent;
    GuardLaw(m);
    ReadyLaw(c, m, i);
    BranchLaw(c, m, i);
    MainIsrLaw(c, m, i);
    match Ready(c, m, i).run.status {
      case Calibrate => CalibrateLaw(c, Ready(c, m, i), i);
      case DrvRun => RunningKept(c, m, i);
      case DrvStop => StopLaw(c, Ready(c, m, i), i);
      case Idle =>
    }
  }

  lemma RunningKept(c: Cfg, m: Machine, i: MainIn)
    requires Valid(c, m) && CfgOk(c) && MainIsrStep(c, m, i).run.status == DrvRun
    ensures var n := MainIsrStep(c, m, i); n.run.enCurrentPid || (n.idPid == m.idPid && n.iqPid == m.iqPid)
  {
    hide MainIsrStep, Sequenced, Valid, CfgOk, Ready, MeasuredSpeed, Regulate, Parked;
    RunningIs(c, m, i);
    RegulatorsOnly(c, Sequenced(c, m, i), i);
    if !MainIsrStep(c, m, i).run.enCurrentPid {
      RegulatorsOff(c, Sequenced(c, m, i), i);
    }
  }

  /** The gains and the error bound are the configured ones. */
  ghost predicate Configured(p: Regulator, q: Regulator) {
    p.kp == q.kp && p.ki == q.ki && p.absErrMax == q.absErrMax
  }

  ghost predicate LoopsConfigured(c: Cfg, m: Machine) {
    Configured(m.idPid, c.idPid) && Configured(m.iqPid, c.iqPid) && Configured(m.wrPid, c.wrPid)
  }

  lemma ConfiguredStep(c: Cfg, m: Machine, e: Event)
    requires Valid(c, m) && CfgOk(c) && LoopsConfigured(c, m)
    ensures LoopsConfigured(c, Step(c, m, e))
  {
    hide Valid, MainLoopStep, MainIsrStep, TickerStep, CfgOk, Sequenced, Guard, Encoded, Starts, PosStep, IncStep,
         Sn, Cs, Park, Ipark, Ready, MeasuredSpeed, Demand;
    match e
    case MainLoop =>
      MainLoopLaw(c, m);
      MainLoopRegulators(c, m);
    case MainInterrupt(i) =>
      MainIsrLaw(c, m, i);
      RegulatorsKept(c, m, i);
      var n := MainIsrStep(c, m, i);
      if n.run.status == DrvRun && n.run.enCurrentPid {
        LoopOn(c, m, i);
        IncKeeps(m.iqPid, n.run.iqdRef.q, Feedback(n.run, i.hfi).q);
        IncKeeps(m.idPid, n.run.iqdRef.d, Feedback(n.run, i.hfi).d);
      }
    case Tick(t) =>
      TickIs(c, m, t);
      PosKeeps(m.wrPid, TickerStep(c, m, t).run.tgtWr, m.run.realTimeWr);
    case _ =>
  }

  lemma MainLoopRegulators(c: Cfg, m: Machine)
    requires CfgOk(c)
    ensures var n := MainLoopStep(c, m);
            !(Starts(m) && m.run.sysRdy) ==> n.idPid == m.idPid && n.iqPid == m.iqPid
  {
    hide CfgOk, SwInit, SpeedSet.AcceptRun;
    AcceptKeeps(m.cmd, m.run, c);
  }

  lemma IncKeeps(p: Regulator, ref: real, fbk: real)
    ensures Configured(IncStep(p, ref, fbk), p)
  {
  }

  lemma PosKeeps(p: Regulator, ref: real, fbk: real)
    ensures Configured(PosStep(p, ref, fbk), p)
  {
  }

  /** In every run all three regulators have their configured gains. */
  lemma {:induction false} GainsKept(c: Cfg, events: seq<Event>)
    requires CfgOk(c)
    ensures LoopsConfigured(c, Reached(c, events))
    decreases |events|
  {
    hide Valid, Step, CfgOk, LoopsConfigured;
    if events == [] {
      BootConfigured(c);
    } else {
      var last := |events| - 1;
      GainsKept(c, events[..last]);
      ReachedValid(c, events[..last]);
      ConfiguredStep(c, Reached(c, events[..last]), events[last]);
    }
  }

  lemma BootConfigured(c: Cfg)
    requires CfgOk(c)
    ensures LoopsConfigured(c, Boot(c))
  {
  }

  /** In every run: a running interrupt with the current loop on and no injection regulates the measured
      currents toward their references, with the configured gains on the error cut to its bound, and
      the stator voltage is what the regulators ask for, turned by the drive angle. */
  lemma RegulatesReached(c: Cfg, events: seq<Event>, i: MainIn)
    requires CfgOk(c) && c.idPid.absErrMax >= 0.0 && c.iqPid.absErrMax >= 0.0 && i.hfi == HfiOff
    ensures var m, n := Reached(c, events), Reached(c, events + [MainInterrupt(i)]);
            var eq, ed := n.run.iqdRef.q - n.run.iqd.q, n.run.iqdRef.d - n.run.iqd.d;
            var q, d, ff := n.iqPid, n.idPid, Feedforward(c, n.run);
      && LoopsConfigured(c, n)
      && (n.run.status == DrvRun && n.run.enCurrentPid ==>
            && Regulated(m.iqPid, q, eq) && Regulated(m.idPid, d, ed)
            && n.run.uqdRef == QD(d.output + ff.d, q.output + ff.q)
            && Turns(n.run, Trig.SinF32(c.table, n.run.drvAngle), Trig.CosF32(c.table, n.run.drvAngle)))
  {
    hide Reached, Valid, MainIsrStep, Turns, Senses, Feedforward, Regulated, Trig.SinF32, Trig.CosF32, Sq;
    ReachedValid(c, events);
    GainsKept(c, events);
    GainsKept(c, events + [MainInterrupt(i)]);
    ReachedSnoc(c, events, MainInterrupt(i));
    CurrentLaw(c, Reached(c, events), i);
    FrameLaw(c, Reached(c, events), i);
  }

  /** Speed, phases and legs of a running interrupt: driven clockwise, the first two phases change
      places on the way in and on the way out. The charging state enables the channels. */
  lemma PhasesLaw(c: Cfg, m: Machine, i: MainIn)
    requires Valid(c, m) && CfgOk(c)
    ensures var n := MainIsrStep(c, m, i);
      n.run.status == DrvRun ==>
        && n.run.realTimeWr == MeasuredSpeed(c, m, i)
        && n.pwm.enabled == (m.pwm.enabled || m.start.status == BscCharge)
        && (n.run.tgtDir == Ccw ==> n.run.iuvw == i.adc && n.pwm.regs == n.pwm.counts)
        && (n.run.tgtDir == Cw ==>
              && n.run.iuvw == Currents(i.adc.v, i.adc.u, i.adc.w)
              && n.pwm.regs == Three(n.pwm.counts.v, n.pwm.counts.u, n.pwm.counts.w))
  {
    hide MainIsrStep, Sequenced, Valid, CfgOk, Regulate, Ready, MeasuredSpeed;
    if MainIsrStep(c, m, i).run.status == DrvRun {
      RunningIs(c, m, i);
      RegulateLaw(c, Sequenced(c, m, i), i);
    }
  }

  // ----- The angle ----------------------------------------------------------------------

  /** A running interrupt drives at the angle its start state asks for: at zero when the state is
      detected, at the open loop's own angle while aligning or forced, and from the closing of the
      loop on at the estimated one. */
  lemma AngleLaw(c: Cfg, m: Machine, i: MainIn)
    requires Valid(c, m) && CfgOk(c)
    ensures var n, s := MainIsrStep(c, m, i), m.start.status;
      n.run.status == DrvRun ==>
        && n.start == Startup.Next(m.start, c.observer)
        && n.run.drvAngle ==
             Startup.AngleAfter(m.start, n.start, c.observer, m.run.drvAngle, EstimatedAngle(c, m, i))
        && (s == CLStart || s == Finish ==> n.run.drvAngle == EstimatedAngle(c, m, i))
        && (s == StateDetect ==> n.run.drvAngle == 0.0)
  {
    hide MainIsrStep, Sequenced, Valid, CfgOk, Regulate, Ready, MeasuredSpeed, EstimatedAngle, Startup.Next;
    if MainIsrStep(c, m, i).run.status == DrvRun {
      RunningIs(c, m, i);
      RegulateLaw(c, Sequenced(c, m, i), i);
    }
  }

  lemma AngleStep(c: Cfg, m: Machine, e: Event)
    requires Valid(c, m) && CfgOk(c) && m.run.status == DrvRun && Step(c, m, e).run.status == DrvRun
    ensures var n := Step(c, m, e);
      && (e.MainInterrupt? ==>
            && n.start == Startup.Next(m.start, c.observer)
            && n.run.drvAngle ==
                 Startup.AngleAfter(m.start, n.start, c.observer, m.run.drvAngle, EstimatedAngle(c, m, e.i)))
      && (!e.MainInterrupt? ==> n.start == m.start && n.run.drvAngle == m.run.drvAngle)
  {
    hide Valid, MainLoopStep, MainIsrStep, TickerStep, IsFresh, CfgOk, Startup.Next, Startup.AngleAfter, EstimatedAngle;
    match e
    case MainLoop => MainLoopLaw(c, m);
    case MainInterrupt(i) => AngleLaw(c, m, i);
    case Tick(t) => TickLaw(c, m, t);
    case _ => OtherLaw(c, m, e);
  }

  lemma OpenAngle(s: Start, o: ObserverType, angle: real, theta: real)
    requires Startup.Next(s, o).status != Finish
    ensures s.status != Finish
    ensures Startup.AngleAfter(s, Startup.Next(s, o), o, angle, theta) ==
            Startup.AngleAfter(s, Startup.Next(s, o), o, angle, 0.0)
  {
    hide Startup.AlignNext, Startup.AlignAngle, Startup.Ramp, Trig.Positive;
  }

  /** Until the loop is closed, the drive angle of a motor kept running is the start sequence's own
      after as many calls as there were main interrupts, whatever the other handlers do. */
  lemma {:induction false} OpenLoopAngle(c: Cfg, m: Machine, events: seq<Event>)
    requires Valid(c, m) && CfgOk(c) && Throughout(c, m, events, DrvRun)
    requires After(c, m, events).start.status != Finish
    ensures After(c, m, events).run.drvAngle ==
            Startup.Angles(m.start, c.observer, m.run.drvAngle, 0.0, Interrupts(events))
    ensures After(c, m, events).start == Startup.Calls(m.start, c.observer, Interrupts(events))
    decreases |events|
  {
    hide Valid, Step, CfgOk, Startup.Next, Startup.AngleAfter, EstimatedAngle;
    if events != [] {
      var last := |events| - 1;
      var before := After(c, m, events[..last]);
      AfterValid(c, m, events[..last]);
      StayedBefore(c, m, events[..last], DrvRun);
      AngleStep(c, before, events[last]);
      if events[last].MainInterrupt? {
        OpenAngle(before.start, c.observer, before.run.drvAngle, EstimatedAngle(c, before, events[last].i));
      }
      OpenLoopAngle(c, m, events[..last]);
    }
  }

  /** In every such run the forced drive turns the field by the sum of its speeds, each for one
      carrier period, and that number is known from the number of interrupts alone. */
  lemma ForcedField(c: Cfg, m: Machine, events: seq<Event>)
    requires Valid(c, m) && CfgOk(c) && Throughout(c, m, events, DrvRun)
    requires m.start.status == ForceDrive && 0.0 <= m.run.drvAngle < Trig.TwoPi
    requires After(c, m, events).start.status != Finish
    ensures var n := Interrupts(events);
      && After(c, m, events).run.drvAngle ==
           Trig.Positive(m.run.drvAngle + Scale(m.start.ts, Startup.SpeedSum(m.start.forceWr, m.start.forceAcc, n)))
      && Startup.SpeedSum(m.start.forceWr, m.start.forceAcc, n) ==
           Scale(n as real, m.start.forceWr) + Scale((n * (n + 1) / 2) as real, m.start.forceAcc)
  {
    hide Valid, Step, CfgOk, After, Throughout, Startup.Calls, Startup.Angles, Startup.SpeedSum, Trig.Positive, Scale;
    var n := Interrupts(events);
    OpenLoopAngle(c, m, events);
    Startup.LastForced(m.start, c.observer, n);
    Startup.ForcedTurn(m.start, c.observer, m.run.drvAngle, 0.0, n);
    Startup.SpeedSumIs(m.start.forceWr, m.start.forceAcc, n);
  }

  /** And the second alignment phase turns it by as many of its steps as there were interrupts, or
      holds it at zero for an encoder. */
  lemma AlignField(c: Cfg, m: Machine, events: seq<Event>)
    requires Valid(c, m) && CfgOk(c) && Throughout(c, m, events, DrvRun)
    requires m.start.status == StartStatus.Align && m.start.align == 1 && 0.0 <= m.run.drvAngle < Trig.TwoPi
    requires Interrupts(events) <= AtLeastOne(m.start.a2)
    ensures var n := Interrupts(events);
            After(c, m, events).run.drvAngle ==
              if n > 0 && c.observer == UseEncoder then 0.0
              else Trig.Positive(m.run.drvAngle + Scale(n as real, m.start.alignDTheta))
  {
    hide Valid, Step, CfgOk, After, Throughout, Startup.Calls, Startup.Angles, Trig.Positive, Scale;
    Startup.AlignTurn(m.start, c.observer, m.run.drvAngle, 0.0, Interrupts(events));
    StartAdvances(c, m, events);
    OpenLoopAngle(c, m, events);
  }

  /** In every run of the handlers: the interrupt of a running motor whose start is closing or
      finished drives at the encoder's phase, normalised, or at the other observer's angle; and that
      phase lies within half a turn of zero. */
  lemma DrivenAtEstimate(c: Cfg, events: seq<Event>, i: MainIn)
    requires CfgOk(c)
    ensures var m, n := Reached(c, events), Reached(c, events + [MainInterrupt(i)]);
      n.run.status == DrvRun && (m.start.status == CLStart || m.start.status == Finish) ==>
        if c.observer == UseEncoder then
          && n.run.drvAngle ==
               Trig.Normal(Encoder.Step(m.enc, c.encoder, i.sample, m.run.tgtDir == Ccw).phase)
          && -Trig.Pi <= n.run.drvAngle < Trig.Pi
        else n.run.drvAngle == i.theta
  {
    hide Reached, Valid, MainIsrStep, CfgOk, Startup.Next, Startup.AngleAfter, Encoder.Step, Trig.Normal;
    var m := Reached(c, events);
    ReachedValid(c, events);
    ReachedSnoc(c, events, MainInterrupt(i));
    AngleLaw(c, m, i);
    Trig.NormalStep(Encoder.Step(m.enc, c.encoder, i.sample, m.run.tgtDir == Ccw).phase);
  }

  // ----- Closing the loop ---------------------------------------------------------------

  /** Closing the loop hands the estimated speed and half the open loop's current to the ramp. */
  lemma ClosingLaw(c: Cfg, m: Machine, i: MainIn)
    requires Valid(c, m) && CfgOk(c) && m.start.status == CLStart
    ensures var n := MainIsrStep(c, m, i);
      n.run.status == DrvRun ==>
        && n.start.status == Finish && n.run.iqdRef == m.run.iqdRef && n.spdRegCnt == 0
        && n.traj == if IsHfi(c.observer) then m.traj
                     else m.traj.(tgtWr := EstimatedSpeed(c, m, i), output := Half(m.run.iqdRef.q),
                                  wrISum := Half(m.run.iqdRef.q))
  {
    hide MainIsrStep, Sequenced, Valid, CfgOk, Regulate, Ready, MeasuredSpeed, EstimatedAngle, EstimatedSpeed, Half,
         Startup.Handover;
    if MainIsrStep(c, m, i).run.status == DrvRun {
      RunningIs(c, m, i);
      RegulateLaw(c, Sequenced(c, m, i), i);
      ClosingTimer(c, m, i);
      HandoverIs(m.start, c.observer, m.traj, m.run, EstimatedSpeed(c, m, i));
    }
  }

  function Half(x: real): real {
    x / 2.0
  }

  lemma HandoverIs(s: Start, o: ObserverType, t: Traj, r: Run, wr: real)
    requires s.status == CLStart
    ensures Startup.Handover(s, o, t, r, wr) ==
            if IsHfi(o) then t else t.(tgtWr := wr, output := Half(r.iqdRef.q), wrISum := Half(r.iqdRef.q))
  {
  }

  lemma ClosingTimer(c: Cfg, m: Machine, i: MainIn)
    requires Valid(c, m) && m.start.status == CLStart && MainIsrStep(c, m, i).run.status == DrvRun
    ensures MainIsrStep(c, m, i).spdRegCnt == 0
  {
    hide Valid, MainIsrStep;
    MainIsrLaw(c, m, i);
  }

  /** The alignment of an encoder sets its offset to zero as the first phase ends, and to the phase
      it then reads, the field standing at angle zero, as the last one ends. */
  lemma OffsetLaw(c: Cfg, m: Machine, i: MainIn)
    requires Valid(c, m) && CfgOk(c)
    ensures var n, s := MainIsrStep(c, m, i), m.start;
      n.run.status == DrvRun ==>
        if s.status == StartStatus.Align && s.align == 0 && s.a1 <= 1 then n.enc.offset == 0.0
        else if s.status == StartStatus.Align && s.align == 2 && s.a3 <= 1 && c.observer == UseEncoder then
          n.enc.offset == Trig.Normal(Encoder.Step(m.enc, c.encoder, i.sample, m.run.tgtDir == Ccw).phase)
        else n.enc.offset == m.enc.offset
  {
    hide MainIsrStep, Sequenced, Valid, CfgOk, Regulate, Ready, MeasuredSpeed, EstimatedSpeed, Encoded, Encoder.Step,
         Trig.Normal, Startup.Next, Startup.OffsetAfter, Startup.AngleAfter, Startup.ReferenceAfter, Startup.Handover;
    if MainIsrStep(c, m, i).run.status == DrvRun {
      RunningIs(c, m, i);
      RegulateLaw(c, Sequenced(c, m, i), i);
      EncodedIs(c, m, i);
      OffsetIs(m.start, c.observer, m.enc.offset, Encoded(c, m, i).phase);
    }
  }

  lemma OffsetIs(s: Start, o: ObserverType, offset: real, phase: real)
    ensures Startup.OffsetAfter(s, Startup.Next(s, o), offset, phase) ==
              if s.status == StartStatus.Align && s.align == 0 && s.a1 <= 1 then 0.0
              else if s.status == StartStatus.Align && s.align == 2 && s.a3 <= 1 && o == UseEncoder then phase
              else offset
  {
    hide Startup.Ramp;
  }

  // ----- Stopping on a zero command -----------------------------------------------------

  /** No interrupt starts a calibration. */
  lemma InterruptStatus(c: Cfg, m: Machine, e: Event)
    requires Valid(c, m) && IsInterrupt(e)
    ensures m.run.status != Calibrate ==> Step(c, m, e).run.status != Calibrate
  {
    hide Valid, MainLoopStep, MainIsrStep, TickerStep, Guard, Starts, IsFresh;
    match e
    case MainInterrupt(i) => MainIsrLaw(c, m, i);
    case Tick(t) => TickLaw(c, m, t);
    case _ => OtherLaw(c, m, e);
  }

  lemma {:induction false} InterruptsStatus(c: Cfg, m: Machine, events: seq<Event>)
    requires Valid(c, m) && CfgOk(c) && forall k :: 0 <= k < |events| ==> IsInterrupt(events[k])
    ensures m.run.status != Calibrate ==> After(c, m, events).run.status != Calibrate
    ensures After(c, m, events).cmd == m.cmd
    decreases |events|
  {
    hide Valid, Step, CfgOk;
    if events != [] {
      var last := |events| - 1;
      InterruptsStatus(c, m, events[..last]);
      AfterValid(c, m, events[..last]);
      InterruptStatus(c, After(c, m, events[..last]), events[last]);
      InterruptKeepsCommand(c, After(c, m, events[..last]), events[last]);
    }
  }

  /** The main loop that finds a zero command leaves the motor idle or stopping. */
  lemma ZeroSeen(c: Cfg, m: Machine)
    requires Valid(c, m) && m.cmd.cmdRpm == 0 && m.run.status != Calibrate
    ensures var n := MainLoopStep(c, m);
            (n.run.status == Idle || n.run.status == DrvStop) && n.cmd == Cmd(0, 0)
  {
    hide Valid, MainLoopStep, IsFresh;
    MainLoopLaw(c, m);
  }

  /** The state that a zero command leads to: command, interrupts, main loop, main interrupt. */
  function AfterZero(c: Cfg, m: Machine, between: seq<Event>, i: MainIn): Machine
    requires CfgOk(c)
  {
    MainIsrStep(c, MainLoopStep(c, After(c, Step(c, m, UsbRpm(0)), between)), i)
  }

  /** In every run: a zero command, whatever interrupts then come, the next call of the main loop and
      one main interrupt leave the motor idle with the bridge off, unless it is calibrating; and it
      does not run again, whatever comes, until a new non-zero command. */
  lemma {:induction false} ZeroStops(c: Cfg, m: Machine, between: seq<Event>, i: MainIn, later: seq<Event>)
    requires Valid(c, m) && CfgOk(c) && m.run.status != Calibrate
    requires forall k :: 0 <= k < |between| ==> IsInterrupt(between[k])
    requires forall k :: 0 <= k < |later| ==> !NewCommand(later[k])
    ensures var s := AfterZero(c, m, between, i);
      && Valid(c, s) && s.run.status == Idle && s.pwm == Off && AllOff(s.run)
      && After(c, s, later).run.status != DrvRun
  {
    hide Valid, Step, MainLoopStep, MainIsrStep, CfgOk, After, Guard, Encoded, Startup.Next, Starts;
    var e := UsbRpm(0);
    OtherLaw(c, m, e);
    var a := Step(c, m, e);
    InterruptsStatus(c, a, between);
    AfterValid(c, a, between);
    var b := After(c, a, between);
    ZeroSeen(c, b);
    MainLoopLaw(c, b);
    MainIsrLaw(c, MainLoopStep(c, b), i);
    StaysHalted(c, AfterZero(c, m, between, i), later);
  }

  lemma {:induction false} StaysHalted(c: Cfg, m: Machine, events: seq<Event>)
    requires Valid(c, m) && CfgOk(c) && Halted(m) && forall k :: 0 <= k < |events| ==> !NewCommand(events[k])
    ensures Halted(After(c, m, events))
    decreases |events|
  {
    hide Valid, Step, CfgOk, Halted, NewCommand;
    if events != [] {
      var last := |events| - 1;
      StaysHalted(c, m, events[..last]);
      AfterValid(c, m, events[..last]);
      HaltedStep(c, After(c, m, events[..last]), events[last]);
    }
  }

  /** The shortest such run, from boot: a running motor without a fault, a zero command, one call of
      the main loop, which asks for the stop, and one main interrupt, which carries it out. */
  lemma ZeroStopsReached(c: Cfg, events: seq<Event>, i: MainIn)
    requires CfgOk(c)
    ensures var m, n := Reached(c, events), Reached(c, events + [UsbRpm(0)] + [MainLoop] + [MainInterrupt(i)]);
      m.run.status == DrvRun && m.run.fault == {} ==>
        && Reached(c, events + [UsbRpm(0)] + [MainLoop]).run.status == DrvStop
        && n.run.status == Idle && n.pwm == Off && AllOff(n.run)
  {
    hide Reached, Valid, MainLoopStep, MainIsrStep, CfgOk, IsFresh, Guard, Encoded, Startup.Next;
    var m := Reached(c, events);
    ReachedValid(c, events);
    ReachedSnoc(c, events, UsbRpm(0));
    ReachedSnoc(c, events + [UsbRpm(0)], MainLoop);
    ReachedSnoc(c, events + [UsbRpm(0)] + [MainLoop], MainInterrupt(i));
    if m.run.status == DrvRun && m.run.fault == {} {
      var a := Step(c, m, UsbRpm(0));
      OtherLaw(c, m, UsbRpm(0));
      MainLoopLaw(c, a);
      MainIsrLaw(c, MainLoopStep(c, a), i);
    }
  }

  // ----- The speed loop -----------------------------------------------------------------

  /** The regulation is due at this tick. */
  predicate DueAt(c: Cfg, m: Machine) {
    m.spdRegCnt + 1 >= c.spdRegTime
  }

  /** A due tick moves the ramp of an enabled ramp and then, with the speed loop on, asks for a
      current: none on the d axis, and on the q axis the proportional gain on target minus measured
      speed plus the integrator, cut to the limits. The integrator gains the integral gain on that
      error when nothing was cut, and decays when something was. Any other tick leaves all of this
      alone. Every tick sets the limits of the current regulators. */
  lemma SpeedLaw(c: Cfg, m: Machine, t: TickIn)
    requires Valid(c, m)
    ensures var n, p := TickerStep(c, m, t), m.wrPid;
            var err := n.run.tgtWr - m.run.realTimeWr;
            var raw := Scale(p.kp, err) + p.iOut;
      && n.run.tgtWr == (if DueAt(c, m) && m.run.enSpdTraj then n.traj.tgtWr else m.run.tgtWr)
      && n.traj == (if !DueAt(c, m) || !m.run.enSpdTraj then m.traj
                    else if SpeedSet.Reversing(m.run, c) then SpeedSet.SlowDown(m.traj)
                    else SpeedSet.Follow(m.traj, m.run.cmdWr))
      && (DueAt(c, m) && m.run.enSpdPid ==>
            && n.run.iqdRef.d == 0.0 && IsCut(n.run.iqdRef.q, raw, p.outMin, p.outMax)
            && n.wrPid.iOut == (if p.outMin <= raw <= p.outMax then p.iOut + Scale(p.ki, err) else Scale(0.98, p.iOut))
            && n.wrPid == p.(output := n.run.iqdRef.q, iOut := n.wrPid.iOut))
      && (!(DueAt(c, m) && m.run.enSpdPid) ==> n.wrPid == p && n.run.iqdRef == m.run.iqdRef)
      && n.idPid == m.idPid.(outMax := t.idMax, outMin := -t.idMax)
      && n.iqPid == m.iqPid.(outMax := t.iqMax, outMin := -t.iqMax)
      && n.spdRegCnt == (if DueAt(c, m) then 0 else m.spdRegCnt + 1)
  {
    hide TickerStep, Valid, SpeedSet.Reversing, SpeedSet.SlowDown, SpeedSet.Follow, IsCut, PosStep, Scale;
    TickIs(c, m, t);
    PosLaw(m.wrPid, TickerStep(c, m, t).run.tgtWr, m.run.realTimeWr);
  }

  /** A tick, in terms of the functions of the handler. */
  lemma TickIs(c: Cfg, m: Machine, t: TickIn)
    ensures var n := TickerStep(c, m, t);
      && n.run.tgtWr == (if DueAt(c, m) && m.run.enSpdTraj then n.traj.tgtWr else m.run.tgtWr)
      && n.traj == (if !DueAt(c, m) || !m.run.enSpdTraj then m.traj
                    else if SpeedSet.Reversing(m.run, c) then SpeedSet.SlowDown(m.traj)
                    else SpeedSet.Follow(m.traj, m.run.cmdWr))
      && (if DueAt(c, m) && m.run.enSpdPid then
            && n.wrPid == PosStep(m.wrPid, n.run.tgtWr, m.run.realTimeWr) && n.run.iqdRef == QD(0.0, n.wrPid.output)
          else n.wrPid == m.wrPid && n.run.iqdRef == m.run.iqdRef)
      && n.idPid == m.idPid.(outMax := t.idMax, outMin := -t.idMax)
      && n.iqPid == m.iqPid.(outMax := t.iqMax, outMin := -t.iqMax)
      && n.spdRegCnt == (if DueAt(c, m) then 0 else m.spdRegCnt + 1)
      && n.run.realTimeWr == m.run.realTimeWr && n.run.drvAngle == m.run.drvAngle && n.start == m.start
  {
    hide BusCheck, PosStep, SpeedSet.Reversing, SpeedSet.StopsNow, SpeedSet.SlowDown, SpeedSet.Follow;
    BusLaw(m);
    ReversingReads(c, m, t);
  }

  lemma ReversingReads(c: Cfg, m: Machine, t: TickIn)
    ensures SpeedSet.Reversing(BusCheck(m).run, c) == SpeedSet.Reversing(m.run, c)
  {
    BusLaw(m);
    hide BusCheck;
  }

  /** The speed regulations of a run, each with its target and the speed measured then. */
  function Regulations(c: Cfg, m: Machine, events: seq<Event>): seq<Call>
    requires CfgOk(c)
    decreases |events|
  {
    if events == [] then [] else
      var last := |events| - 1;
      var before, e := After(c, m, events[..last]), events[last];
      if e.Tick? && DueAt(c, before) then
        Regulations(c, m, events[..last]) + [Call(Step(c, before, e).run.tgtWr, before.run.realTimeWr)]
      else Regulations(c, m, events[..last])
  }

  /** Of a running motor whose start is finished, only a due tick touches speed regulator and current
      reference. */
  lemma SpeedStep(c: Cfg, m: Machine, e: Event)
    requires Valid(c, m) && CfgOk(c) && m.run.status == DrvRun && m.start.status == Finish
    requires Step(c, m, e).run.status == DrvRun
    ensures var n := Step(c, m, e);
      && n.start.status == Finish
      && (if e.Tick? && DueAt(c, m) then
            && n.wrPid == PosStep(m.wrPid, n.run.tgtWr, m.run.realTimeWr) && n.run.iqdRef == QD(0.0, n.wrPid.output)
          else n.wrPid == m.wrPid && n.run.iqdRef == m.run.iqdRef)
  {
    hide MainLoopStep, MainIsrStep, TickerStep, IsFresh, CfgOk, PosStep, Sequenced, Encoded, Guard, Regulate,
         Startup.Valid, StopControl.Valid, Calibration.Going, SpeedSet.Coherent;
    match e
    case MainLoop => MainLoopLaw(c, m);
    case MainInterrupt(i) =>
      MainIsrLaw(c, m, i);
      RunningReference(c, m, i);
    case Tick(t) =>
      TickIs(c, m, t);
    case _ => OtherLaw(c, m, e);
  }

  lemma RunningReference(c: Cfg, m: Machine, i: MainIn)
    requires Valid(c, m) && CfgOk(c) && MainIsrStep(c, m, i).run.status == DrvRun && m.start.status == Finish
    ensures MainIsrStep(c, m, i).run.iqdRef == m.run.iqdRef && MainIsrStep(c, m, i).start.status == Finish
  {
    hide MainIsrStep, Sequenced, Valid, CfgOk, Regulate, Ready, MeasuredSpeed, EstimatedAngle, EstimatedSpeed;
    RunningIs(c, m, i);
    RegulateLaw(c, Sequenced(c, m, i), i);
  }

  /** Over every run of a motor kept running after its start, whatever the handlers interleave, the
      speed regulator is the positional controller run on the regulations that fell due, and the
      current reference is its last output on the q axis. */
  lemma {:induction false} SpeedLoopRuns(c: Cfg, m: Machine, events: seq<Event>)
    requires Valid(c, m) && CfgOk(c) && Throughout(c, m, events, DrvRun) && m.start.status == Finish
    ensures var n, calls := After(c, m, events), Regulations(c, m, events);
      && n.start.status == Finish && n.wrPid == PosRun(m.wrPid, calls)
      && n.run.iqdRef == if calls == [] then m.run.iqdRef else QD(0.0, n.wrPid.output)
    decreases |events|
  {
    hide Valid, Step, CfgOk, PosStep, DueAt;
    if events != [] {
      var last := |events| - 1;
      var before, calls := After(c, m, events[..last]), Regulations(c, m, events[..last]);
      SpeedLoopRuns(c, m, events[..last]);
      AfterValid(c, m, events[..last]);
      StayedBefore(c, m, events[..last], DrvRun);
      SpeedStep(c, before, events[last]);
      if events[last].Tick? && DueAt(c, before) {
        PosRunLast(m.wrPid, calls, Call(Step(c, before, events[last]).run.tgtWr, before.run.realTimeWr));
      }
    }
  }

  lemma PosRunLast(p: Regulator, calls: seq<Call>, call: Call)
    ensures PosRun(p, calls + [call]) == PosStep(PosRun(p, calls), call.ref, call.fbk)
  {
    hide PosStep;
    assert (calls + [call])[..|calls|] == calls;
  }

  /** So while no output was cut, the current asked for is the proportional gain on the last speed
      error, plus the integrator the run began with, plus the integral gain on all earlier errors. */
  lemma SpeedLoopIsPi(c: Cfg, m: Machine, events: seq<Event>)
    requires Valid(c, m) && CfgOk(c) && Throughout(c, m, events, DrvRun) && m.start.status == Finish
    requires Cut(m.wrPid, Regulations(c, m, events), false) && Regulations(c, m, events) != []
    ensures var calls := Regulations(c, m, events);
            var last := |calls| - 1;
      After(c, m, events).run.iqdRef ==
        QD(0.0, Scale(m.wrPid.kp, calls[last].ref - calls[last].fbk) + m.wrPid.iOut
                + Scale(m.wrPid.ki, PosErrSum(calls[..last])))
  {
    hide Valid, CfgOk, After, Throughout, Regulations, Cut, PosErrSum, PosRun, Scale;
    SpeedLoopRuns(c, m, events);
    PosIsPi(m.wrPid, Regulations(c, m, events));
  }

  // ----- The channels -------------------------------------------------------------------

  /** A running motor past the charging state and a calibrating one have their channels enabled. */
  ghost predicate ChannelsOn(m: Machine) {
    && (m.run.status == DrvRun && m.start.status != Initialize && m.start.status != BscCharge ==> m.pwm.enabled)
    && (m.run.status == Calibrate ==> m.pwm.enabled)
  }

  lemma ChannelsInterrupt(c: Cfg, m: Machine, i: MainIn)
    requires Valid(c, m) && CfgOk(c) && ChannelsOn(m)
    ensures ChannelsOn(MainIsrStep(c, m, i))
  {
    hide Valid, MainIsrStep, CfgOk, Modulated, MeasuredSpeed, Guard, Encoded, Startup.AlignNext, Calibration.Left;
    MainIsrLaw(c, m, i);
    PhasesLaw(c, m, i);
    if MainIsrStep(c, m, i).run.status == Calibrate {
      CalibratingOn(c, m, i);
    }
  }

  lemma CalibratingOn(c: Cfg, m: Machine, i: MainIn)
    requires Valid(c, m) && CfgOk(c) && MainIsrStep(c, m, i).run.status == Calibrate
    ensures m.run.status == Calibrate && MainIsrStep(c, m, i).pwm.enabled == m.pwm.enabled
  {
    hide MainIsrStep, CfgOk, Modulated, Guard, Encoded, Ready, CalibrateIsr, DriveIsr, Calibration.Next,
         Calibration.Left, Calibration.Going, Startup.Valid, StopControl.Valid, SpeedSet.Coherent;
    MainIsrLaw(c, m, i);
    GuardLaw(m);
    ReadyLaw(c, m, i);
    BranchLaw(c, m, i);
    CalibrateLaw(c, Ready(c, m, i), i);
  }

  lemma ChannelsStep(c: Cfg, m: Machine, e: Event)
    requires Valid(c, m) && CfgOk(c) && ChannelsOn(m)
    ensures ChannelsOn(Step(c, m, e))
  {
    hide Valid, MainLoopStep, MainIsrStep, TickerStep, CfgOk, Startup.Next, Encoded, Guard;
    match e
    case MainLoop => MainLoopLaw(c, m);
    case MainInterrupt(i) => ChannelsInterrupt(c, m, i);
    case Tick(t) => TickLaw(c, m, t);
    case _ => OtherLaw(c, m, e);
  }

  /** In every run: from the detection of the state on, and while calibrating, the channels of a driven
      motor are enabled. */
  lemma {:induction false} ChannelsEnabled(c: Cfg, events: seq<Event>)
    requires CfgOk(c)
    ensures ChannelsOn(Reached(c, events))
    decreases |events|
  {
    hide Valid, Step, Boot, CfgOk, ChannelsOn;
    if events == [] {
      BootValid(c);
      IdleChannels(Boot(c));
    } else {
      var last := |events| - 1;
      ChannelsEnabled(c, events[..last]);
      ReachedValid(c, events[..last]);
      ChannelsStep(c, Reached(c, events[..last]), events[last]);
    }
  }

  lemma IdleChannels(m: Machine)
    requires m.run.status == Idle
    ensures ChannelsOn(m)
  {
  }

  // ----- Calibration --------------------------------------------------------------------

  /** The current that the calibration reads: phase U of the motor as driven. */
  function CalibrationCurrent(m: Machine, i: MainIn): real {
    if m.run.tgtDir == Ccw then i.adc.u else i.adc.v
  }

  /** The voltages of the two measuring loops, both on the alpha axis: the integrated error of the
      current while it stays within two volts, and the reversed test voltage. */
  lemma MeasuringVoltage(c: Cfg, m: Machine, i: MainIn)
    requires Valid(c, m) && CfgOk(c) && m.run.status == Calibrate && MainIsrStep(c, m, i).run.fault == {}
    ensures var n, k := MainIsrStep(c, m, i), m.calib;
            var v := k.testVoltage + (k.current - CalibrationCurrent(m, i)) / c.carrier as real;
      && (k.step == RLoop ==> n.calib.testVoltage == v)
      && (k.step == RLoop && -2.0 <= v <= 2.0 && k.loopCount < 2 * c.carrier ==> n.run.uab == AB(v, 0.0))
      && (k.step == LLoop ==> n.calib.testVoltage == -k.testVoltage && n.run.uab == AB(-k.testVoltage, 0.0))
  {
    hide MainIsrStep, CfgOk, CalibrateIsr, Calibration.Next, Calibration.Drives, Startup.Valid, StopControl.Valid,
         SpeedSet.Coherent, Sn, Cs, Ipark, Ready;
    CalibratingIs(c, m, i);
    CalibrateIs(c, Ready(c, m, i), i);
    Calibration.TestVoltagesLaw(m.calib, c, CalibrationCurrent(m, i), i.undef, Ready(c, m, i).run);
  }

  /** The voltage of the turning phases: one and a half times current times resistance, along the phase
      set so far, which moves on by half a turn a second. */
  lemma TurningVoltage(c: Cfg, m: Machine, i: MainIn)
    requires Valid(c, m) && CfgOk(c) && m.run.status == Calibrate && MainIsrStep(c, m, i).run.fault == {}
    requires m.calib.step == PpStart || m.calib.step == PpLoop
    ensures var n, k := MainIsrStep(c, m, i), m.calib;
            var u, angle := 1.5 * (k.current * k.resistance), n.calib.phaseSet;
      && n.run.uab == AB(Scale(Trig.CosF32(c.table, angle), u), Scale(Trig.SinF32(c.table, angle), u))
      && angle == (if k.step == PpStart then k.phaseSet else k.phaseSet + Trig.Pi / c.carrier as real)
  {
    hide MainIsrStep, CalibrateIsr, Calibration.Next, Calibration.Drives, Startup.Valid, StopControl.Valid,
         SpeedSet.Coherent, Ipark, Ready, Scale, Trig.SinF32, Trig.CosF32;
    CalibratingIs(c, m, i);
    CalibrateIs(c, Ready(c, m, i), i);
    Calibration.TurningLaw(m.calib, c, CalibrationCurrent(m, i), i.undef, Ready(c, m, i).run);
    var n := MainIsrStep(c, m, i);
    var d := Calibration.Drives(m.calib, n.calib, c, Ready(c, m, i).run);
    AlongD(d.uqdRef.d, Sn(c, d.drvAngle), Cs(c, d.drvAngle));
    assert n.run.uab == AB(Scale(Cs(c, d.drvAngle), d.uqdRef.d), Scale(Sn(c, d.drvAngle), d.uqdRef.d));
    assert d.uqdRef.d == 1.5 * (m.calib.current * m.calib.resistance) && d.drvAngle == n.calib.phaseSet;
  }

  lemma CalibratingIs(c: Cfg, m: Machine, i: MainIn)
    requires Valid(c, m) && CfgOk(c) && m.run.status == Calibrate && MainIsrStep(c, m, i).run.fault == {}
    ensures var s := Ready(c, m, i);
      && MainIsrStep(c, m, i) == CalibrateIsr(c, s, i)
      && s.calib == m.calib && s.run.iuvw.u == CalibrationCurrent(m, i)
  {
    hide Valid, MainIsrStep, Guard, Encoded, Ready, CalibrateIsr, DriveIsr, CfgOk;
    GuardLaw(m);
    ReadyLaw(c, m, i);
    BranchLaw(c, m, i);
    MainIsrLaw(c, m, i);
  }

  /** The calibrating interrupt, in terms of the functions of the handler. */
  lemma CalibrateIs(c: Cfg, s: Machine, i: MainIn)
    requires CfgOk(c)
    ensures var n, k := CalibrateIsr(c, s, i), Calibration.Next(s.calib, c, s.run.iuvw.u, i.undef);
            var d := Calibration.Drives(s.calib, k, c, s.run);
      && n.calib == k
      && n.run == (if k.outputType == 1 then d.(uab := Ipark(d.uqdRef, Sn(c, d.drvAngle), Cs(c, d.drvAngle))) else d)
  {
    hide Calibration.Next, Calibration.Drives, Sn, Cs, Ipark, Modulated;
  }

  lemma AlongD(u: real, sn: real, cs: real)
    ensures Ipark(QD(u, 0.0), sn, cs) == AB(Scale(cs, u), Scale(sn, u))
  {
  }
}
