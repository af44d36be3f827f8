/** The stop sequence of stop_control.c. */
module StopControl {
  import opened MotorTypes

  const Cleared := Stop(StopInitialize, false, 0, 0)

  function Disabled(r: Run): Run {
    r.(enSpdPid := false, enSpdTraj := false, enBreak := false, enCurrentPid := false)
  }

  /** Without the brake, which nothing enables, every call ends the sequence. */
  function Next(s: Stop, started: bool, slow: bool): Stop {
    if !started then s.(status := StopFinish)
    else if s.status == StopInitialize then
      if s.enBrakeStop && !slow then s.(timerCnt := 0, status := ShortBrake, shortBrake := 0)
      else s.(timerCnt := 0, status := StopFinish)
    else s
  }

  /** The statuses with a branch of their own keep the motor running; all others stop it. */
  predicate Stops(s: Stop, started: bool, slow: bool) {
    !started || (s.status == StopInitialize && (!s.enBrakeStop || slow)) || s.status == StopFinish
  }

  /** Only the branch that ends a running motor's first call leaves the trajectory enabled. */
  function Drives(s: Stop, started: bool, slow: bool, r: Run, angle: real): Run {
    var r := r.(drvAngle := angle);
    if !Stops(s, started, slow) then r
    else if started && s.status == StopInitialize && !s.enBrakeStop then Stopped(r)
    else Stopped(Disabled(r))
  }

  method Control(m: Motor, angle: real, slow: bool)
    modifies m`stop, m`run, m`pwm
    ensures var started := old(m.start).status == Finish;
      && m.stop == Next(old(m.stop), started, slow)
      && m.run == Drives(old(m.stop), started, slow, old(m.run), angle)
      && m.pwm == if Stops(old(m.stop), started, slow) then Off else old(m.pwm)
  {
    m.run := m.run.(drvAngle := angle);
    if m.start.status != Finish {
      Disable(m);
      FastStop(m);
      m.stop := m.stop.(status := StopFinish);
      return;
    }
    if m.stop.status == StopInitialize {
      m.stop := m.stop.(timerCnt := 0);
      if m.stop.enBrakeStop {
        if slow {
          Disable(m);
          FastStop(m);
          m.stop := m.stop.(status := StopFinish);
        } else {
          m.stop := m.stop.(status := ShortBrake);
          m.stop := m.stop.(shortBrake := 0);
        }
      } else {
        m.stop := m.stop.(status := StopFinish);
        FastStop(m);
      }
    } else if m.stop.status == StopFinish {
      Disable(m);
      FastStop(m);
    }
  }

  method Disable(m: Motor)
    modifies m`run
    ensures m.run == Disabled(old(m.run))
  {
    m.run := m.run.(enSpdPid := false);
    m.run := m.run.(enSpdTraj := false);
    m.run := m.run.(enBreak := false);
    m.run := m.run.(enCurrentPid := false);
  }

  /** The brake is off and the sequence is at its start or its end. */
  predicate Valid(s: Stop) {
    !s.enBrakeStop && (s.status == StopInitialize || s.status == StopFinish)
  }

  /** Whatever the start sequence has reached, a call stops the motor, and the brake branches
      stay out of reach. */
  lemma AlwaysStops(s: Stop, started: bool, slow: bool, r: Run, angle: real)
    requires Valid(s)
    ensures Stops(s, started, slow) && Valid(Next(s, started, slow)) && Next(s, started, slow).status == StopFinish
    ensures var q := Drives(s, started, slow, r, angle);
      && q.status == Idle && !q.enSpdPid && !q.enCurrentPid && !q.enBreak
      && (q.enSpdTraj <==> r.enSpdTraj && started && s.status == StopInitialize)
  {
  }
}
