/** Command acceptance and the speed ramp of speed_set.c. */
module SpeedSet {
  import opened Numeric
  import opened MotorTypes

  // ----- Command acceptance -------------------------------------------------------------

  function AbsInt(n: int): int {
    if n > 0 then n else -n
  }

  /** The command after raising a slow one to the minimum speed. */
  function Raised(rpm: int, minRpm: int): int {
    var a := if AbsInt(rpm) < minRpm then minRpm else AbsInt(rpm);
    if rpm > 0 then a else if rpm < 0 then -a else 0
  }

  function Accepted(c: Cmd, minRpm: int): Cmd {
    if c.cmdRpm != c.preCmdRpm then Cmd(Raised(c.cmdRpm, minRpm), Raised(c.cmdRpm, minRpm)) else c
  }

  function AcceptRun(c: Cmd, r: Run, cfg: Cfg): Run {
    if c.cmdRpm != c.preCmdRpm then
      r.(cmdDir := if c.cmdRpm > 0 then Ccw else if c.cmdRpm < 0 then Cw else r.cmdDir,
         cmdWr := Scale(AbsInt(Raised(c.cmdRpm, cfg.minRpm)) as real, cfg.rpm2Wr))
    else r
  }

  method Accept(m: Motor)
    modifies m`cmd, m`run
    ensures m.cmd == Accepted(old(m.cmd), m.cfg.minRpm)
    ensures m.run == AcceptRun(old(m.cmd), old(m.run), m.cfg)
  {
    hide Scale;
    if m.cmd.cmdRpm != m.cmd.preCmdRpm {
      var rpm := m.cmd.cmdRpm;
      var absRpm := AbsInt(rpm);
      if absRpm < m.cfg.minRpm {
        absRpm := m.cfg.minRpm;
      }
      if rpm > 0 {
        rpm := absRpm;
        m.run := m.run.(cmdDir := Ccw);
      } else if rpm < 0 {
        rpm := -absRpm;
        m.run := m.run.(cmdDir := Cw);
      } else {
        rpm := 0;
        absRpm := 0;
      }
      m.cmd := m.cmd.(cmdRpm := rpm);
      m.cmd := m.cmd.(preCmdRpm := rpm);
      m.run := m.run.(cmdWr := Scale(absRpm as real, m.cfg.rpm2Wr));
    }
  }

  /** The accepted command, the direction and the commanded speed belong together. */
  predicate Coherent(c: Cmd, r: Run, cfg: Cfg) {
    && (c.preCmdRpm > 0 ==> r.cmdDir == Ccw) && (c.preCmdRpm < 0 ==> r.cmdDir == Cw)
    && (c.preCmdRpm == 0 || AbsInt(c.preCmdRpm) >= cfg.minRpm)
    && r.cmdWr == Scale(AbsInt(c.preCmdRpm) as real, cfg.rpm2Wr)
  }

  /** Acceptance establishes that for every new command and keeps it otherwise. It takes a command
      over as it is, except that a slow one is raised to the minimum speed; it turns none into its
      opposite and finds nothing to do when repeated. */
  lemma AcceptLaw(c: Cmd, r: Run, cfg: Cfg)
    requires Coherent(c, r, cfg)
    ensures var d := Accepted(c, cfg.minRpm);
      && Coherent(d, AcceptRun(c, r, cfg), cfg) && d.cmdRpm == d.preCmdRpm
      && (d.cmdRpm == 0 <==> c.cmdRpm == 0) && (d.cmdRpm > 0 <==> c.cmdRpm > 0)
      && (c.cmdRpm == c.preCmdRpm || AbsInt(c.cmdRpm) >= cfg.minRpm ==> d.cmdRpm == c.cmdRpm)
      && (c.cmdRpm != c.preCmdRpm && 0 < AbsInt(c.cmdRpm) < cfg.minRpm ==> AbsInt(d.cmdRpm) == cfg.minRpm)
      && Accepted(d, cfg.minRpm) == d && AcceptRun(d, AcceptRun(c, r, cfg), cfg) == AcceptRun(c, r, cfg)
  {
    hide Scale;
  }

  // ----- `Speed_TgtSpdTraj` -------------------------------------------------------------

  function Cleared(cfg: Cfg): Traj {
    Traj(0.0, cfg.maxStep, cfg.maxWr, 0.0, 0.0)
  }

  /** A reversal that the ramp carries out by slowing down. */
  predicate Reversing(r: Run, cfg: Cfg) {
    r.cmdDir != r.tgtDir && !cfg.breakEnable
  }

  predicate StopsNow(t: Traj) {
    t.tgtWr < t.maxStep
  }

  function Clamped(t: Traj, wr: real): Traj {
    t.(tgtWr := Clamp(wr, -t.maxWr, t.maxWr))
  }

  function SlowDown(t: Traj): Traj {
    Clamped(t, if StopsNow(t) then t.maxStep else t.tgtWr - t.maxStep)
  }

  function Follow(t: Traj, cmdWr: real): Traj {
    Clamped(t, t.tgtWr + Clamp(cmdWr - t.tgtWr, -t.maxStep, t.maxStep))
  }

  method InitSpdTraj(m: Motor)
    modifies m`traj
    ensures m.traj == Cleared(m.cfg)
  {
    m.traj := Zeroed(m.cfg).traj;
    m.traj := m.traj.(maxWr := m.cfg.maxWr);
    m.traj := m.traj.(maxStep := m.cfg.maxStep);
  }

  method TgtSpdTraj(m: Motor, cmdWr: real) returns (wr: real)
    modifies m`traj, m`run
    ensures var reversing := Reversing(old(m.run), m.cfg);
      && m.traj == (if reversing then SlowDown(old(m.traj)) else Follow(old(m.traj), cmdWr))
      && m.run == (if reversing && StopsNow(old(m.traj)) then old(m.run).(status := DrvStop) else old(m.run))
    ensures wr == m.traj.tgtWr
  {
    if m.run.cmdDir != m.run.tgtDir && !m.cfg.breakEnable {
      if m.traj.tgtWr < m.traj.maxStep {
        m.run := m.run.(status := DrvStop);
        m.traj := m.traj.(tgtWr := m.traj.maxStep);
      } else {
        m.traj := m.traj.(tgtWr := m.traj.tgtWr - m.traj.maxStep);
      }
      m.traj := m.traj.(tgtWr := Clamp(m.traj.tgtWr, -m.traj.maxWr, m.traj.maxWr));
    } else {
      var delta := cmdWr - m.traj.tgtWr;
      var step := Clamp(delta, -m.traj.maxStep, m.traj.maxStep);
      m.traj := m.traj.(tgtWr := m.traj.tgtWr + step);
      m.traj := m.traj.(tgtWr := Clamp(m.traj.tgtWr, -m.traj.maxWr, m.traj.maxWr));
    }
    wr := m.traj.tgtWr;
  }

  // ----- Reversal -----------------------------------------------------------------------

  /** The call, counted from one, at which a held reversal stops the drive. */
  function StopCall(t: Traj): int
    requires t.maxStep > 0.0
  {
    if StopsNow(t) then 1 else (t.tgtWr / t.maxStep).Floor + 1
  }

  function SlowDowns(t: Traj, n: nat): Traj {
    if n == 0 then t else SlowDown(SlowDowns(t, n - 1))
  }

  /** Until the stopping call every call takes one off the count, or more where the speed limit
      cuts in. */
  lemma SlowDownStep(t: Traj)
    requires 0.0 < t.maxStep && 0.0 <= t.maxWr
    ensures !StopsNow(t) ==> StopCall(SlowDown(t)) <= StopCall(t) - 1
    ensures !StopsNow(t) && t.tgtWr <= t.maxWr ==> StopCall(SlowDown(t)) == StopCall(t) - 1
    ensures StopCall(t) >= 1 && (StopCall(t) == 1 <==> StopsNow(t))
    ensures SlowDown(t).tgtWr <= t.maxWr && SlowDown(t) == t.(tgtWr := SlowDown(t).tgtWr)
    ensures SlowDown(t).tgtWr == Min(t.maxWr, if t.tgtWr < t.maxStep then t.maxStep else t.tgtWr - t.maxStep)
  {
    var wr, a := t.tgtWr, t.maxStep;
    QuotientAtLeastOne(wr, a);
    if !StopsNow(t) {
      OneLess(wr, a);
      QuotientAtLeastOne(wr - a, a);
      assert SlowDown(t).tgtWr == Min(t.maxWr, wr - a);
      QuotientMonotone(SlowDown(t).tgtWr, wr - a, a);
      QuotientAtLeastOne(SlowDown(t).tgtWr, a);
    }
  }

  /** A held reversal stops the drive at exactly the call numbered floor(target / step) + 1. */
  lemma {:induction false} ReversalBound(t: Traj, n: nat)
    requires 0.0 < t.maxStep && 0.0 <= t.maxWr && t.tgtWr <= t.maxWr
    requires n < StopCall(t)
    ensures var u := SlowDowns(t, n);
      && u.tgtWr <= t.maxWr && u == t.(tgtWr := u.tgtWr)
      && StopCall(u) == StopCall(t) - n && (StopsNow(u) <==> n == StopCall(t) - 1)
  {
    hide StopCall, StopsNow;
    SlowDownStep(t);
    if n > 0 {
      ReversalBound(t, n - 1);
      SlowDownStep(SlowDowns(t, n - 1));
      SlowDownStep(SlowDowns(t, n));
    }
  }

  /** The most calls a held reversal needs from anywhere: one to come below the speed limit and
      then the count from there. */
  function MostCalls(t: Traj): int
    requires t.maxStep > 0.0
  {
    (t.maxWr / t.maxStep).Floor + 2
  }

  /** The count, or the most calls where the target starts above the speed limit. */
  function CallsLeft(t: Traj): int
    requires t.maxStep > 0.0
  {
    if StopCall(t) > MostCalls(t) then MostCalls(t) else StopCall(t)
  }

  lemma CallsLeftStep(t: Traj)
    requires 0.0 < t.maxStep && 0.0 <= t.maxWr
    ensures 1 <= CallsLeft(t) <= MostCalls(t) && (CallsLeft(t) == 1 ==> StopsNow(t))
    ensures !StopsNow(t) ==> CallsLeft(SlowDown(t)) <= CallsLeft(t) - 1
    ensures MostCalls(SlowDown(t)) == MostCalls(t) && SlowDown(t).maxStep == t.maxStep
  {
    SlowDownStep(t);
    var u, a := SlowDown(t), t.maxStep;
    QuotientMonotone(u.tgtWr, t.maxWr, a);
    QuotientMonotone(0.0, t.maxWr, a);
    QuotientAtLeastOne(u.tgtWr, a);
    assert StopCall(u) <= MostCalls(t) - 1;
    hide StopCall, SlowDown, StopsNow;
  }

  // ----- The ramp -----------------------------------------------------------------------

  /** Where the ramp is heading: the command, within the speed limits. */
  function Goal(t: Traj, cmdWr: real): real {
    Clamp(cmdWr, -t.maxWr, t.maxWr)
  }

  /** The target is at most one step beyond the speed limits. The hand-over of an estimated speed
      can leave it further out. */
  predicate Near(t: Traj) {
    -t.maxWr - t.maxStep <= t.tgtWr <= t.maxWr + t.maxStep
  }

  /** One call comes within the limits and goes toward the goal, never past it; it reaches the goal
      or comes closer by at least one step. It moves by at most one step, and comes closer by
      exactly one, exactly when it starts at most one step beyond the limits: from further out it
      jumps to the limit. */
  lemma FollowStep(t: Traj, cmdWr: real)
    requires t.maxStep > 0.0 && t.maxWr >= 0.0
    ensures var g, u := Goal(t, cmdWr), Follow(t, cmdWr);
      && -t.maxWr <= u.tgtWr <= t.maxWr && u == t.(tgtWr := u.tgtWr) && Near(u)
      && (t.tgtWr <= g ==> t.tgtWr <= u.tgtWr <= g) && (g <= t.tgtWr ==> g <= u.tgtWr <= t.tgtWr)
      && Abs(g - u.tgtWr) <= Max(0.0, Abs(g - t.tgtWr) - t.maxStep)
      && (Abs(g - u.tgtWr) == Max(0.0, Abs(g - t.tgtWr) - t.maxStep) <==> Near(t))
      && (Abs(u.tgtWr - t.tgtWr) <= t.maxStep <==> Near(t))
  {
  }

  function Follows(t: Traj, cmdWr: real, n: nat): Traj {
    if n == 0 then t else Follow(Follows(t, cmdWr, n - 1), cmdWr)
  }

  /** After `n` calls the distance to the goal has shrunk by at least `n` steps, from any target,
      and by exactly `n` steps from one at most one step beyond the limits: from there the goal is
      reached at exactly the first call by which the steps cover it. */
  lemma {:induction false} RampBound(t: Traj, cmdWr: real, n: nat)
    requires t.maxStep > 0.0 && t.maxWr >= 0.0
    ensures var g, u := Goal(t, cmdWr), Follows(t, cmdWr, n);
      && u == t.(tgtWr := u.tgtWr) && (n > 0 ==> -t.maxWr <= u.tgtWr <= t.maxWr) && (Near(t) || n > 0 ==> Near(u))
      && Abs(g - u.tgtWr) <= Max(0.0, Abs(g - t.tgtWr) - Scale(n as real, t.maxStep))
      && (Abs(g - t.tgtWr) <= Scale(n as real, t.maxStep) ==> u.tgtWr == g)
      && (Near(t) ==>
            && Abs(g - u.tgtWr) == Max(0.0, Abs(g - t.tgtWr) - Scale(n as real, t.maxStep))
            && (u.tgtWr == g <==> Abs(g - t.tgtWr) <= Scale(n as real, t.maxStep)))
  {
    hide Scale, Follow, Abs, Max, Clamp;
    if n == 0 {
      ScaleNext(0, t.maxStep);
      NoStep(Goal(t, cmdWr), t.tgtWr);
    } else {
      var before := Follows(t, cmdWr, n - 1);
      RampBound(t, cmdWr, n - 1);
      ScaleNext(n - 1, t.maxStep);
      FollowStep(before, cmdWr);
      var g, steps, now := Goal(t, cmdWr), Scale((n - 1) as real, t.maxStep), Follows(t, cmdWr, n).tgtWr;
      StepsShrink(g, t.tgtWr, before.tgtWr, now, steps, t.maxStep);
      if Near(t) {
        StepsCover(g, t.tgtWr, before.tgtWr, now, steps, t.maxStep);
      }
    }
  }

  lemma StepsShrink(g: real, start: real, before: real, now: real, steps: real, step: real)
    requires step > 0.0
    requires Abs(g - before) <= Max(0.0, Abs(g - start) - steps)
    requires Abs(g - now) <= Max(0.0, Abs(g - before) - step)
    ensures Abs(g - now) <= Max(0.0, Abs(g - start) - (steps + step))
    ensures Abs(g - start) <= steps + step ==> now == g
  {
  }

  lemma StepsCover(g: real, start: real, before: real, now: real, steps: real, step: real)
    requires step > 0.0
    requires Abs(g - before) == Max(0.0, Abs(g - start) - steps)
    requires Abs(g - now) == Max(0.0, Abs(g - before) - step)
    ensures Abs(g - now) == Max(0.0, Abs(g - start) - (steps + step))
    ensures now == g <==> Abs(g - start) <= steps + step
  {
  }

  lemma NoStep(g: real, start: real)
    ensures Abs(g - start) == Max(0.0, Abs(g - start) - 0.0) && (start == g <==> Abs(g - start) <= 0.0)
  {
  }

  lemma {:induction false} FollowsFirst(t: Traj, cmdWr: real, n: nat)
    ensures Follows(Follow(t, cmdWr), cmdWr, n) == Follows(t, cmdWr, n + 1)
  {
    hide Follow;
    if n > 0 {
      FollowsFirst(t, cmdWr, n - 1);
    } else {
      assert Follows(t, cmdWr, 0) == t;
    }
  }

  /** From any target whatever: the first call comes within the limits, and from there the goal is
      reached at exactly the first call by which the steps cover what is left. */
  lemma RampFromAnywhere(t: Traj, cmdWr: real, n: nat)
    requires t.maxStep > 0.0 && t.maxWr >= 0.0
    ensures var g, first := Goal(t, cmdWr), Follow(t, cmdWr).tgtWr;
            Follows(t, cmdWr, n + 1).tgtWr == g <==> Abs(g - first) <= Scale(n as real, t.maxStep)
  {
    hide Scale, Follow, Abs, Max, Clamp, Follows;
    FollowStep(t, cmdWr);
    FollowsFirst(t, cmdWr, n);
    RampBound(Follow(t, cmdWr), cmdWr, n);
  }
}
