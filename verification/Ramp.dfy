/** The speed ramp over every run of the handlers. */
module Ramp {
  import opened Numeric
  import opened PiCalc
  import opened MotorTypes
  import opened Handlers
  import opened Lifecycle
  import Startup
  import StopControl
  import Calibration
  import SpeedSet

  /** A motor that has finished its start and follows the commanded speed `wr`. */
  ghost predicate Following(c: Cfg, m: Machine, wr: real) {
    m.run.status == DrvRun && m.start.status == Finish && !SpeedSet.Reversing(m.run, c) && m.run.cmdWr == wr
  }

  /** In every state of the run the motor follows the same command. */
  ghost predicate FollowingThroughout(c: Cfg, m: Machine, events: seq<Event>, wr: real)
    requires CfgOk(c)
    decreases |events|
  {
    Following(c, After(c, m, events), wr) && (events == [] || FollowingThroughout(c, m, events[..|events| - 1], wr))
  }

  /** A tick counts toward the regulation, and the one that is due moves the ramp once. */
  lemma FollowingTick(c: Cfg, m: Machine, t: TickIn, wr: real)
    requires Valid(c, m) && Following(c, m, wr)
    ensures var n := TickerStep(c, m, t);
      if m.spdRegCnt + 1 == Period(c) then n.spdRegCnt == 0 && n.traj == SpeedSet.Follow(m.traj, wr)
      else n.spdRegCnt == m.spdRegCnt + 1 && n.traj == m.traj
  {
    hide BusCheck, PosStep, SpeedSet.Follow, SpeedSet.SlowDown, SpeedSet.StopsNow,
         Startup.Valid, StopControl.Valid, Calibration.Going, CfgOk;
    BusLaw(m);
  }

  lemma FollowingStep(c: Cfg, m: Machine, e: Event, wr: real)
    requires Valid(c, m) && Following(c, m, wr) && Following(c, Step(c, m, e), wr) && !e.Tick?
    ensures SameRamp(m, Step(c, m, e))
  {
    hide Valid, MainLoopStep, MainIsrStep, TickerStep, Guard, IsFresh, SpeedSet.Reversing, Encoded, CfgOk;
    match e
    case MainLoop => MainLoopLaw(c, m);
    case MainInterrupt(i) => MainIsrLaw(c, m, i);
    case _ => OtherLaw(c, m, e);
  }

  /** The regulations that fall due over a number of ticks. */
  function Due(c: Cfg, m: Machine, ticks: nat): int {
    (m.spdRegCnt + ticks) / Period(c)
  }

  lemma NextDue(x: int, p: int)
    requires p >= 1 && x >= 0
    ensures if x % p + 1 == p then (x + 1) / p == x / p + 1 && (x + 1) % p == 0
            else (x + 1) / p == x / p && (x + 1) % p == x % p + 1
  {
    var q, r := x / p, x % p;
    assert x == q * p + r;
    if r + 1 == p {
      Quotient(x + 1, p, q + 1, 0);
    } else {
      Quotient(x + 1, p, q, r + 1);
    }
  }

  lemma Quotient(x: int, p: int, q: int, r: int)
    requires p >= 1 && 0 <= r < p && x == q * p + r
    ensures x / p == q && x % p == r
  {
    assert (x / p - q) * p == r - x % p;
    SmallMultiple(x / p - q, p);
  }

  lemma SmallMultiple(d: int, p: int)
    requires p >= 1
    ensures -p < d * p < p ==> d == 0
  {
    if d >= 1 {
      assert (d - 1) * p >= 0;
    } else if d <= -1 {
      assert (-d - 1) * p >= 0;
    }
  }

  /** Over any interleaving the ramp is exactly the simple ramp, one call for every `Period` ticks:
      commands, main interrupts and the order of the handlers do not enter. */
  lemma {:induction false} RampFollows(c: Cfg, m: Machine, events: seq<Event>, wr: real)
    requires Valid(c, m) && CfgOk(c) && FollowingThroughout(c, m, events, wr) && Following(c, m, wr)
    ensures var n, k := After(c, m, events), Due(c, m, Ticks(events));
      && k >= 0 && n.traj == SpeedSet.Follows(m.traj, wr, k)
      && n.spdRegCnt == (m.spdRegCnt + Ticks(events)) % Period(c)
    decreases |events|
  {
    hide Valid, Step, CfgOk, SpeedSet.Follow, Following, Period;
    CountInPeriod(c, m);
    if events == [] {
      Quotient(m.spdRegCnt, Period(c), 0, m.spdRegCnt);
    } else {
      var last := |events| - 1;
      var n, e := After(c, m, events[..last]), events[last];
      RampFollows(c, m, events[..last], wr);
      AfterValid(c, m, events[..last]);
      FollowingBefore(c, m, events[..last], wr);
      NextDue(m.spdRegCnt + Ticks(events[..last]), Period(c));
      NonNegativeQuotient(m.spdRegCnt + Ticks(events[..last]), Period(c));
      if e.Tick? {
        FollowingTick(c, n, e.t, wr);
        TickIsStep(c, n, e.t);
      } else {
        FollowingStep(c, n, e, wr);
      }
    }
  }

  lemma CountInPeriod(c: Cfg, m: Machine)
    requires Valid(c, m)
    ensures 0 <= m.spdRegCnt < Period(c)
  {
  }

  lemma FollowingBefore(c: Cfg, m: Machine, events: seq<Event>, wr: real)
    requires CfgOk(c) && FollowingThroughout(c, m, events, wr)
    ensures Following(c, After(c, m, events), wr)
  {
  }

  lemma NonNegativeQuotient(x: int, p: int)
    requires x >= 0 && p >= 1
    ensures x / p >= 0
  {
  }

  /** When a followed command is reached, in ticks, from any target whatever, also one that the
      hand-over left beyond the speed limits: exactly when the regulations after the first cover
      what is left after it, and from a target at most one step beyond the limits exactly when the
      regulations cover the distance. */
  lemma RampReaches(c: Cfg, m: Machine, events: seq<Event>, wr: real)
    requires Valid(c, m) && CfgOk(c) && c.maxStep > 0.0 && c.maxWr >= 0.0
    requires FollowingThroughout(c, m, events, wr) && Following(c, m, wr)
    ensures var n, k, g := After(c, m, events), Due(c, m, Ticks(events)), Clamp(wr, -c.maxWr, c.maxWr);
      && (k >= 1 ==>
            (n.traj.tgtWr == g <==>
               Abs(g - SpeedSet.Follow(m.traj, wr).tgtWr) <= Scale((k - 1) as real, c.maxStep)))
      && (SpeedSet.Near(m.traj) ==>
            (n.traj.tgtWr == g <==> Abs(g - m.traj.tgtWr) <= Scale(k as real, c.maxStep)))
  {
    hide Valid, After, CfgOk, Following, FollowingThroughout, SpeedSet.Follow, SpeedSet.Near, Scale, Abs, Clamp,
         SpeedSet.Follows, Period;
    RampFollows(c, m, events, wr);
    LimitsOf(c, m);
    var k := Due(c, m, Ticks(events));
    SpeedSet.RampBound(m.traj, wr, k);
    if k >= 1 {
      SpeedSet.RampFromAnywhere(m.traj, wr, k - 1);
    }
  }

  lemma LimitsOf(c: Cfg, m: Machine)
    requires Valid(c, m)
    ensures m.traj.maxStep == c.maxStep && m.traj.maxWr == c.maxWr
  {
  }

  /** Hence, from any target, a bound by the configuration alone: one regulation and then those
      that cover the whole range of speeds. */
  lemma RampReachesInTime(c: Cfg, m: Machine, events: seq<Event>, wr: real)
    requires Valid(c, m) && CfgOk(c) && c.maxStep > 0.0 && c.maxWr >= 0.0
    requires FollowingThroughout(c, m, events, wr) && Following(c, m, wr)
    requires var k := Due(c, m, Ticks(events)); k >= 1 && 2.0 * c.maxWr <= Scale((k - 1) as real, c.maxStep)
    ensures After(c, m, events).traj.tgtWr == Clamp(wr, -c.maxWr, c.maxWr)
  {
    hide Valid, After, CfgOk, Following, FollowingThroughout, SpeedSet.Follow, SpeedSet.Near, Scale, Period;
    RampReaches(c, m, events, wr);
    LimitsOf(c, m);
    SpeedSet.FollowStep(m.traj, wr);
  }

  /** Where the ramp starts: the interrupt that closes the loop leaves the estimated speed in the
      target, within the limits or not, so the next regulation moves it by more than a step exactly
      when that speed is more than a step beyond the limits. */
  lemma HandoverJumpsIff(c: Cfg, m: Machine, i: MainIn, wr: real)
    requires Valid(c, m) && c.maxStep > 0.0 && c.maxWr >= 0.0
    requires m.start.status == CLStart && c.observer != UseEncoder && !IsHfi(c.observer)
    ensures var n := MainIsrStep(c, m, i);
            n.run.status == DrvRun ==>
              && n.traj.tgtWr == i.wr
              && (Abs(SpeedSet.Follow(n.traj, wr).tgtWr - n.traj.tgtWr) > c.maxStep <==>
                    i.wr > c.maxWr + c.maxStep || i.wr < -c.maxWr - c.maxStep)
  {
    hide Valid, MainIsrStep, Guard, Encoded, CfgOk, SpeedSet.Follow, Abs;
    ConfigOk(c, m);
    MainIsrLaw(c, m, i);
    var n := MainIsrStep(c, m, i);
    LimitsOf(c, n);
    SpeedSet.FollowStep(n.traj, wr);
  }
}
