/** The open-loop start sequence of startup.c and how many calls it takes. */
module Startup {
  import opened MotorTypes
  import opened Trig
  import opened Numeric
  import opened Transform

  // ----- `Startup_Init` -----------------------------------------------------------------

  function Cleared(c: Cfg): Start
    requires c.carrier > 0
  {
    Start(Initialize, 0,
          if c.align1 <= 0 then 0 else c.align1, if c.align2 <= 0 then 0 else c.align2, c.align3,
          0.0, 0.0,
          c.alignIq, if c.align1 <= 0 then c.alignIq else c.alignIq / c.align1 as real,
          if c.align2 <= 0 then 0.0 else c.alignTheta / c.align2 as real,
          c.forceMaxIq, c.forceDIq / c.carrier as real, c.forceMaxWr, c.forceAcc / c.carrier as real,
          1.0 / c.carrier as real)
  }

  method Init(m: Motor)
    requires m.cfg.carrier > 0
    modifies m`start
    ensures m.start == Cleared(m.cfg)
  {
    var c := m.cfg;
    m.start := Zeroed(c).start;
    m.start := m.start.(status := Initialize, align := 0);
    m.start := m.start.(ts := 1.0 / c.carrier as real);
    m.start := m.start.(forceIq := 0.0, forceWr := 0.0);
    m.start := m.start.(a1 := c.align1, a2 := c.align2, a3 := c.align3, alignIq := c.alignIq);
    if m.start.a1 <= 0 {
      m.start := m.start.(a1 := 0, alignDIq := m.start.alignIq);
    } else {
      m.start := m.start.(alignDIq := m.start.alignIq / m.start.a1 as real);
    }
    if m.start.a2 <= 0 {
      m.start := m.start.(a2 := 0, alignDTheta := 0.0);
    } else {
      m.start := m.start.(alignDTheta := c.alignTheta / m.start.a2 as real);
    }
    m.start := m.start.(forceMaxIq := c.forceMaxIq, forceDIq := c.forceDIq / c.carrier as real);
    m.start := m.start.(forceAcc := c.forceAcc / c.carrier as real, forceMaxWr := c.forceMaxWr);
  }

  /** A start begins with everything at rest. A second of calls raises the forced current and the forced
      speed by the configured slopes; the first two alignment phases, where they have a length, raise
      the current to its limit and turn the field by the configured angle. */
  lemma ClearedLaw(c: Cfg)
    requires c.carrier > 0
    ensures var s := Cleared(c);
      && s.status == Initialize && s.align == 0 && s.forceIq == 0.0 && s.forceWr == 0.0
      && s.ts * c.carrier as real == 1.0
      && s.forceDIq * c.carrier as real == c.forceDIq && s.forceAcc * c.carrier as real == c.forceAcc
      && s.forceMaxIq == c.forceMaxIq && s.forceMaxWr == c.forceMaxWr && s.alignIq == c.alignIq
      && s.a1 == Max0(c.align1) && s.a2 == Max0(c.align2) && s.a3 == c.align3
      && (c.align1 >= 1 ==> s.alignDIq * c.align1 as real == c.alignIq)
      && (c.align1 < 1 ==> s.alignDIq == c.alignIq)
      && (c.align2 >= 1 ==> s.alignDTheta * c.align2 as real == c.alignTheta)
      && (c.align2 < 1 ==> s.alignDTheta == 0.0)
  {
  }

  function Max0(n: int): int {
    if n < 0 then 0 else n
  }

  // ----- `Startup_Control` --------------------------------------------------------------

  function Ramp(x: real, dx: real, limit: real): real {
    if x < limit then x + dx else limit
  }

  /** The three alignment phases count their times down; the last one leaves the state. */
  function AlignNext(s: Start, o: ObserverType): Start {
    AlignPhase(s.(forceIq := Ramp(s.forceIq, s.alignDIq, s.alignIq)), o)
  }

  function AlignPhase(s: Start, o: ObserverType): Start {
    if s.align == 0 then
      s.(a1 := s.a1 - 1, align := if s.a1 - 1 <= 0 then 1 else 0)
    else if s.align == 1 then
      s.(a2 := s.a2 - 1, align := if s.a2 - 1 <= 0 then 2 else 1)
    else if s.align == 2 then
      s.(a3 := s.a3 - 1,
         status := if s.a3 - 1 > 0 then Align else if o == UseEncoder then CLStart else ForceDrive)
    else s
  }

  /** The second phase turns the field, except that an encoder is aligned at angle zero. */
  function AlignAngle(s: Start, o: ObserverType, angle: real): real {
    if s.align != 1 then angle else if o == UseEncoder then 0.0 else Positive(angle + s.alignDTheta)
  }

  /** The start record after one call. The states no call enters are left as they are. */
  function Next(s: Start, o: ObserverType): Start {
    match s.status
    case Initialize => s.(status := BscCharge)
    case BscCharge => s.(status := StateDetect)
    case StateDetect => s.(status := if IsHfi(o) then CLStart else Align)
    case Align => AlignNext(s, o)
    case ForceDrive =>
      s.(forceIq := Ramp(s.forceIq, s.forceDIq, s.forceMaxIq), forceWr := s.forceWr + s.forceAcc,
         status := if s.forceWr + s.forceAcc > s.forceMaxWr then CLStart else ForceDrive)
    case CLStart => s.(status := Finish)
    case _ => s
  }

  /** The drive angle and the current reference after a call. */
  function AngleAfter(s: Start, n: Start, o: ObserverType, angle: real, theta: real): real {
    match s.status
    case StateDetect => 0.0
    case Align => AlignAngle(s, o, angle)
    case ForceDrive => Positive(angle + Scale(n.forceWr, s.ts))
    case CLStart => theta
    case Finish => theta
    case _ => angle
  }

  function ReferenceAfter(s: Start, n: Start, o: ObserverType, ref: QD): QD {
    match s.status
    case StateDetect => QD(0.0, 0.0)
    case Align => if o == UseEncoder then QD(n.forceIq, 0.0) else QD(0.0, n.forceIq)
    case ForceDrive => QD(0.0, n.forceIq)
    case _ => ref
  }

  /** The enables. */
  function Enables(s: Start, r: Run): Run {
    match s.status
    case Initialize => r.(enSpdPid := false, enSpdTraj := false, enBreak := false, enCurrentPid := false)
    case StateDetect => r.(enCurrentPid := true)
    case CLStart => r.(enSpdPid := true, enSpdTraj := true)
    case _ => r
  }

  /** What one call does to the shared parameters, given the record after the call. */
  function Drives(s: Start, n: Start, o: ObserverType, r: Run, theta: real): Run {
    Enables(s, r).(drvAngle := AngleAfter(s, n, o, r.drvAngle, theta), iqdRef := ReferenceAfter(s, n, o, r.iqdRef))
  }

  /** Closing the loop hands half the current reference and the estimated speed to the ramp. */
  function Handover(s: Start, o: ObserverType, t: Traj, r: Run, wr: real): Traj {
    if s.status == CLStart && !IsHfi(o) then
      t.(output := r.iqdRef.q * 0.5, wrISum := r.iqdRef.q * 0.5, tgtWr := wr)
    else t
  }

  /** The alignment of an encoder measures its phase offset, from zero. */
  function OffsetAfter(s: Start, n: Start, offset: real, phase: real): real {
    if s.status != Align then offset
    else if s.align == 0 && n.align == 1 then 0.0
    else if s.align == 2 && n.status == CLStart then phase
    else offset
  }

  method Control(m: Motor, theta: real, wr: real)
    modifies m`start, m`run, m`pwm, m`traj, m`spdRegCnt, m.enc`offset
    ensures m.enc.offset == OffsetAfter(old(m.start), m.start, old(m.enc.offset), m.enc.phase)
    ensures m.start == Next(old(m.start), m.cfg.observer)
    ensures m.run == Drives(old(m.start), m.start, m.cfg.observer, old(m.run), theta)
    ensures m.traj == Handover(old(m.start), m.cfg.observer, old(m.traj), old(m.run), wr)
    ensures m.pwm == if old(m.start).status == BscCharge then old(m.pwm).(enabled := true) else old(m.pwm)
    ensures m.spdRegCnt == if old(m.start).status == CLStart then 0 else old(m.spdRegCnt)
  {
    hide Positive;
    match m.start.status {
      case Finish =>
        m.run := m.run.(drvAngle := theta);
      case CLStart =>
        CloseLoop(m, theta, wr);
      case Initialize =>
        m.run := m.run.(enSpdPid := false);
        m.run := m.run.(enSpdTraj := false);
        m.run := m.run.(enBreak := false);
        m.run := m.run.(enCurrentPid := false);
        m.start := m.start.(status := BscCharge);
      case BscCharge =>
        m.pwm := m.pwm.(enabled := true);
        m.start := m.start.(status := StateDetect);
      case StateDetect =>
        Detect(m);
      case Align =>
        ControlAlign(m);
      case ForceDrive =>
        ControlForce(m);
      case _ =>
    }
  }

  method CloseLoop(m: Motor, theta: real, wr: real)
    requires m.start.status == CLStart
    modifies m`start, m`run, m`traj, m`spdRegCnt
    ensures m.start == Next(old(m.start), m.cfg.observer) && m.spdRegCnt == 0
    ensures m.run == Drives(old(m.start), m.start, m.cfg.observer, old(m.run), theta)
    ensures m.traj == Handover(old(m.start), m.cfg.observer, old(m.traj), old(m.run), wr)
  {
    m.spdRegCnt := 0;
    m.run := m.run.(enSpdPid := true);
    m.run := m.run.(enSpdTraj := true);
    m.run := m.run.(drvAngle := theta);
    if !IsHfi(m.cfg.observer) {
      m.traj := m.traj.(output := m.run.iqdRef.q * 0.5);
      m.traj := m.traj.(wrISum := m.traj.output);
      m.traj := m.traj.(tgtWr := wr);
    }
    m.start := m.start.(status := Finish);
  }

  method Detect(m: Motor)
    requires m.start.status == StateDetect
    modifies m`start, m`run
    ensures m.start == Next(old(m.start), m.cfg.observer)
    ensures m.run == Drives(old(m.start), m.start, m.cfg.observer, old(m.run), 0.0)
  {
    m.run := m.run.(drvAngle := 0.0);
    m.run := m.run.(iqdRef := QD(0.0, 0.0));
    m.run := m.run.(enCurrentPid := true);
    if IsHfi(m.cfg.observer) {
      m.start := m.start.(status := CLStart);
    } else {
      m.start := m.start.(status := Align);
    }
  }

  method ControlAlign(m: Motor)
    requires m.start.status == Align
    modifies m`start, m`run, m.enc`offset
    ensures m.enc.offset == OffsetAfter(old(m.start), m.start, old(m.enc.offset), m.enc.phase)
    ensures m.start == AlignNext(old(m.start), m.cfg.observer)
    ensures m.run == Drives(old(m.start), m.start, m.cfg.observer, old(m.run), 0.0)
  {
    hide Positive, AlignPhase, AlignAngle, OffsetAfter;
    if m.start.forceIq < m.start.alignIq {
      m.start := m.start.(forceIq := m.start.forceIq + m.start.alignDIq);
    } else {
      m.start := m.start.(forceIq := m.start.alignIq);
    }
    SameAngle(old(m.start), m.start, m.cfg.observer, m.run.drvAngle);
    ghost var ramped := m.start;
    ControlPhase(m);
    SameOffset(old(m.start), ramped, m.start, old(m.enc.offset), m.enc.phase);
    if m.cfg.observer == UseEncoder {
      m.run := m.run.(iqdRef := QD(m.start.forceIq, 0.0));
    } else {
      m.run := m.run.(iqdRef := QD(0.0, m.start.forceIq));
    }
    PhaseKeepsCurrent(old(m.start).(forceIq := m.start.forceIq), m.cfg.observer);
  }

  lemma SameAngle(s: Start, t: Start, o: ObserverType, angle: real)
    requires t == s.(forceIq := t.forceIq)
    ensures AlignAngle(s, o, angle) == AlignAngle(t, o, angle)
  {
  }

  lemma SameOffset(s: Start, t: Start, n: Start, offset: real, phase: real)
    requires t == s.(forceIq := t.forceIq)
    ensures OffsetAfter(s, n, offset, phase) == OffsetAfter(t, n, offset, phase)
  {
  }

  lemma PhaseKeepsCurrent(s: Start, o: ObserverType)
    ensures AlignPhase(s, o).forceIq == s.forceIq
  {
  }

  method ControlPhase(m: Motor)
    requires m.start.status == Align
    modifies m`start, m`run, m.enc`offset
    ensures m.enc.offset == OffsetAfter(old(m.start), m.start, old(m.enc.offset), m.enc.phase)
    ensures m.start == AlignPhase(old(m.start), m.cfg.observer)
    ensures m.run == old(m.run).(drvAngle := AlignAngle(old(m.start), m.cfg.observer, old(m.run).drvAngle))
    ensures m.start.forceIq == old(m.start).forceIq
  {
    hide Positive;
    if m.start.align == 0 {
      m.start := m.start.(a1 := m.start.a1 - 1);
      if m.start.a1 <= 0 {
        m.start := m.start.(align := 1);
        m.enc.offset := 0.0;
      }
    } else if m.start.align == 1 {
      if m.cfg.observer == UseEncoder {
        m.run := m.run.(drvAngle := 0.0);
      } else {
        var angle := WrapAngle(m.run.drvAngle + m.start.alignDTheta);
        m.run := m.run.(drvAngle := angle);
      }
      m.start := m.start.(a2 := m.start.a2 - 1);
      if m.start.a2 <= 0 {
        m.start := m.start.(align := 2);
      }
    } else if m.start.align == 2 {
      m.start := m.start.(a3 := m.start.a3 - 1);
      if m.start.a3 <= 0 {
        if m.cfg.observer == UseEncoder {
          m.enc.offset := m.enc.phase;
          m.start := m.start.(status := CLStart);
        } else {
          m.start := m.start.(status := ForceDrive);
        }
      }
    }
  }

  method ControlForce(m: Motor)
    requires m.start.status == ForceDrive
    modifies m`start, m`run
    ensures m.start == Next(old(m.start), m.cfg.observer)
    ensures m.run == Drives(old(m.start), m.start, m.cfg.observer, old(m.run), 0.0)
  {
    hide Positive, Scale;
    if m.start.forceIq < m.start.forceMaxIq {
      m.start := m.start.(forceIq := m.start.forceIq + m.start.forceDIq);
    } else {
      m.start := m.start.(forceIq := m.start.forceMaxIq);
    }
    m.run := m.run.(iqdRef := QD(0.0, m.start.forceIq));
    m.start := m.start.(forceWr := m.start.forceWr + m.start.forceAcc);
    if m.start.forceWr > m.start.forceMaxWr {
      m.start := m.start.(status := CLStart);
    }
    var dTheta := Scale(m.start.forceWr, m.start.ts);
    var angle := WrapAngle(m.run.drvAngle + dTheta);
    m.run := m.run.(drvAngle := angle);
  }

  // ----- The states a start visits ------------------------------------------------------

  predicate Visited(s: StartStatus) {
    s in {Initialize, BscCharge, StateDetect, Align, ForceDrive, CLStart, Finish}
  }

  /** Only the observers that see nothing at standstill need the forced drive. */
  predicate NeedsForce(o: ObserverType) {
    o != UseEncoder && !IsHfi(o)
  }

  /** What every call keeps: one of seven states, no open loop beyond what the observer needs,
      and a phase of the alignment in 0 to 2. */
  predicate Valid(s: Start, o: ObserverType) {
    && Visited(s.status) && 0 <= s.align <= 2
    && (s.status == Align ==> !IsHfi(o))
    && (s.status == ForceDrive ==> NeedsForce(o))
  }

  lemma NextValid(s: Start, o: ObserverType)
    requires Valid(s, o)
    ensures Valid(Next(s, o), o)
  {
  }

  // ----- How long it takes --------------------------------------------------------------

  /** Calls left in the alignment. */
  function AlignLeft(s: Start): int {
    if s.align == 0 then AtLeastOne(s.a1) + AtLeastOne(s.a2) + AtLeastOne(s.a3)
    else if s.align == 1 then AtLeastOne(s.a2) + AtLeastOne(s.a3)
    else AtLeastOne(s.a3)
  }

  /** The next forced call takes the speed past its maximum. */
  predicate Passes(wr: real, acc: real, max: real) {
    wr + acc > max
  }

  /** Calls until a speed that rises by `acc` has passed the maximum. */
  function ForceCalls(wr: real, acc: real, max: real): int
    requires acc > 0.0 || Passes(wr, acc, max)
  {
    if Passes(wr, acc, max) then 1 else ((max - wr) / acc).Floor + 1
  }

  /** The forced drive, where it is needed and still to come, has an end. */
  predicate Climbs(s: Start, o: ObserverType) {
    !NeedsForce(o) || s.status == CLStart || s.status == Finish
      || s.forceAcc > 0.0 || Passes(s.forceWr, s.forceAcc, s.forceMaxWr)
  }

  /** Calls left until the start sequence finishes. */
  function Left(s: Start, o: ObserverType): int
    requires Valid(s, o) && Climbs(s, o)
  {
    if s.status == Finish then 0 else if s.status == CLStart then 1 else
      var force := if NeedsForce(o) then ForceCalls(s.forceWr, s.forceAcc, s.forceMaxWr) else 0;
      if s.status == ForceDrive then force + 1 else
      if s.status == Align then AlignLeft(s) + force + 1 else
        var sequence := if IsHfi(o) then 1 else AlignLeft(s) + force + 1;
        if s.status == StateDetect then 1 + sequence
        else if s.status == BscCharge then 2 + sequence
        else 3 + sequence
  }

  lemma ForceCallsStep(wr: real, acc: real, max: real)
    requires acc > 0.0 && !Passes(wr, acc, max)
    ensures ForceCalls(wr + acc, acc, max) == ForceCalls(wr, acc, max) - 1
    ensures ForceCalls(wr, acc, max) >= 2
  {
    OneLess(max - wr, acc);
    QuotientAtLeastOne(max - wr, acc);
    QuotientAtLeastOne(max - (wr + acc), acc);
    assert max - (wr + acc) == (max - wr) - acc;
  }

  /** Every call takes exactly one off, down to zero. */
  lemma LeftStep(s: Start, o: ObserverType)
    requires Valid(s, o) && Climbs(s, o)
    ensures var n := Next(s, o);
            Valid(n, o) && Climbs(n, o) && Left(n, o) == if s.status == Finish then 0 else Left(s, o) - 1
  {
    hide ForceCalls, AlignNext, Ramp;
    if s.status == Align {
      LeftStepAlign(s, o);
    } else if s.status == ForceDrive {
      LeftStepForce(s, o);
    }
  }

  lemma LeftStepAlign(s: Start, o: ObserverType)
    requires s.status == Align && Valid(s, o) && Climbs(s, o)
    ensures var n := Next(s, o); Valid(n, o) && Climbs(n, o) && Left(n, o) == Left(s, o) - 1
  {
    hide ForceCalls, AlignLeft, AlignNext;
    AlignStep(s, o);
  }

  /** The alignment counts down through its phases and hands over at the last call. */
  lemma AlignStep(s: Start, o: ObserverType)
    requires s.status == Align && 0 <= s.align <= 2
    ensures var n := AlignNext(s, o);
      && n.forceWr == s.forceWr && n.forceAcc == s.forceAcc && n.forceMaxWr == s.forceMaxWr && 0 <= n.align <= 2
      && (if AlignLeft(s) > 1 then n.status == Align && AlignLeft(n) == AlignLeft(s) - 1
          else AlignLeft(s) == 1 && n.status == if o == UseEncoder then CLStart else ForceDrive)
  {
    hide Ramp;
  }

  lemma LeftStepForce(s: Start, o: ObserverType)
    requires s.status == ForceDrive && Valid(s, o) && Climbs(s, o)
    ensures var n := Next(s, o); Valid(n, o) && Climbs(n, o) && Left(n, o) == Left(s, o) - 1
  {
    hide ForceCalls, AlignLeft, Ramp;
    if Passes(s.forceWr, s.forceAcc, s.forceMaxWr) {
      ForceCallsLast(s.forceWr, s.forceAcc, s.forceMaxWr);
    } else {
      ForceCallsStep(s.forceWr, s.forceAcc, s.forceMaxWr);
    }
  }

  lemma ForceCallsLast(wr: real, acc: real, max: real)
    requires Passes(wr, acc, max)
    ensures ForceCalls(wr, acc, max) == 1
  {
  }

  lemma LeftPositive(s: Start, o: ObserverType)
    requires Valid(s, o) && Climbs(s, o)
    ensures Left(s, o) >= 0 && (Left(s, o) == 0 <==> s.status == Finish)
  {
    hide AlignLeft, ForceCalls;
    AlignLeftPositive(s);
    if s.forceAcc > 0.0 || Passes(s.forceWr, s.forceAcc, s.forceMaxWr) {
      ForceCallsPositive(s.forceWr, s.forceAcc, s.forceMaxWr);
    }
  }

  lemma AlignLeftPositive(s: Start)
    ensures AlignLeft(s) >= 1
  {
  }

  lemma ForceCallsPositive(wr: real, acc: real, max: real)
    requires acc > 0.0 || Passes(wr, acc, max)
    ensures ForceCalls(wr, acc, max) >= 1
  {
    if !Passes(wr, acc, max) {
      ForceCallsStep(wr, acc, max);
    }
  }

  function Calls(s: Start, o: ObserverType, n: nat): Start {
    if n == 0 then s else Next(Calls(s, o, n - 1), o)
  }

  lemma {:induction false} LeftAfter(s: Start, o: ObserverType, n: nat)
    requires Valid(s, o) && Climbs(s, o)
    ensures var t := Calls(s, o, n);
      && Valid(t, o) && Climbs(t, o)
      && Left(t, o) == if n <= Left(s, o) then Left(s, o) - n else 0
  {
    hide Left, Valid, Climbs, Next;
    LeftPositive(s, o);
    if n > 0 {
      LeftAfter(s, o, n - 1);
      LeftStep(Calls(s, o, n - 1), o);
      LeftPositive(Calls(s, o, n - 1), o);
    }
  }

  /** The length of a start, from the configured times. */
  function Length(c: Cfg): int
    requires c.carrier > 0 && Climbs(Cleared(c), c.observer)
  {
    if IsHfi(c.observer) then 4 else
      4 + AtLeastOne(c.align1) + AtLeastOne(c.align2) + AtLeastOne(c.align3)
        + if NeedsForce(c.observer) then ForceCalls(0.0, c.forceAcc / c.carrier as real, c.forceMaxWr) else 0
  }

  /** A start finishes at exactly this call, never earlier and never later, and visits seven
      states only. */
  lemma StartsInLength(c: Cfg, n: nat)
    requires c.carrier > 0 && Climbs(Cleared(c), c.observer)
    ensures var s := Calls(Cleared(c), c.observer, n);
            Valid(s, c.observer) && (s.status == Finish <==> n >= Length(c))
  {
    hide ForceCalls, Climbs, Next, Calls;
    var s := Cleared(c);
    LeftAfter(s, c.observer, n);
    LeftPositive(Calls(s, c.observer, n), c.observer);
    assert Left(s, c.observer) == Length(c);
  }

  /** The forced speed does not rise and has not passed: the drive is forced for ever. */
  predicate Stuck(s: Start, o: ObserverType) {
    Valid(s, o) && !Climbs(s, o)
  }

  lemma {:induction false} StaysStuck(s: Start, o: ObserverType, n: nat)
    requires Stuck(s, o)
    ensures Stuck(Calls(s, o, n), o)
  {
    if n > 0 {
      StaysStuck(s, o, n - 1);
      hide Ramp;
    }
  }

  /** The condition is exact: a start ends at all only where the forced drive, if needed, climbs
      or passes its maximum at once. */
  lemma StartsIff(c: Cfg)
    requires c.carrier > 0
    ensures (exists n :: n >= 0 && Calls(Cleared(c), c.observer, n).status == Finish)
            <==> Climbs(Cleared(c), c.observer)
  {
    hide Calls, Next, Climbs;
    var s := Cleared(c);
    if Climbs(s, c.observer) {
      LengthPositive(c);
      StartsInLength(c, Length(c));
    } else {
      forall n | n >= 0
        ensures Calls(s, c.observer, n).status != Finish
      {
        StaysStuck(s, c.observer, n);
        FinishedClimbs(Calls(s, c.observer, n), c.observer);
      }
    }
  }

  lemma FinishedClimbs(s: Start, o: ObserverType)
    ensures s.status == Finish ==> Climbs(s, o)
  {
  }

  lemma LengthPositive(c: Cfg)
    requires c.carrier > 0 && Climbs(Cleared(c), c.observer)
    ensures Length(c) >= 0
  {
    hide ForceCalls;
    if NeedsForce(c.observer) {
      ForceCallsPositive(0.0, c.forceAcc / c.carrier as real, c.forceMaxWr);
    }
  }

  // ----- What it puts out ---------------------------------------------------------------

  predicate OpenLoop(s: StartStatus) {
    s == Align || s == ForceDrive
  }

  /** The current and its steps are not negative, the open-loop angle stays on the turn, and the
      alignment current is at most one step past its limit. */
  predicate InRange(s: Start, r: Run) {
    && s.forceIq >= 0.0 && s.alignDIq >= 0.0 && s.forceDIq >= 0.0 && s.alignIq >= 0.0 && s.forceMaxIq >= 0.0
    && (OpenLoop(s.status) ==> 0.0 <= r.drvAngle < TwoPi)
    && (s.status == ForceDrive || s.status == CLStart || s.status == Finish || s.forceIq <= s.alignIq + s.alignDIq)
  }

  /** The current limit of an open-loop state, one ramp step included. */
  function CurrentLimit(s: Start): real {
    if s.status == Align then s.alignIq + s.alignDIq else s.forceMaxIq + s.forceDIq
  }

  /** One call keeps the ranges; in open loop the current reference it sets is the ramp's, on
      the d axis only when an encoder is aligned, and at most one step past its limit. */
  lemma OpenLoopRange(s: Start, o: ObserverType, r: Run, theta: real)
    requires Valid(s, o) && InRange(s, r)
    ensures var n := Next(s, o);
            var q := Drives(s, n, o, r, theta);
      && InRange(n, q)
      && (OpenLoop(s.status) ==>
            && q.iqdRef == (if s.status == Align && o == UseEncoder then QD(n.forceIq, 0.0) else QD(0.0, n.forceIq))
            && 0.0 <= n.forceIq <= CurrentLimit(s) && 0.0 <= q.drvAngle < TwoPi)
  {
    if s.status == Align {
      AlignRange(s, o, r, theta);
    } else if s.status == ForceDrive {
      ForceRange(s, o, r, theta);
    } else {
      hide Positive, Scale, AlignNext, AlignAngle, Ramp;
      assert 0.0 < TwoPi;
    }
  }

  lemma ReferenceIs(s: Start, o: ObserverType, r: Run, theta: real)
    ensures var n := Next(s, o); Drives(s, n, o, r, theta).iqdRef == ReferenceAfter(s, n, o, r.iqdRef)
  {
    hide Next, ReferenceAfter, AngleAfter;
  }

  lemma AlignRange(s: Start, o: ObserverType, r: Run, theta: real)
    requires s.status == Align && InRange(s, r)
    ensures var n := Next(s, o);
            var q := Drives(s, n, o, r, theta);
      && InRange(n, q) && 0.0 <= n.forceIq <= CurrentLimit(s) && 0.0 <= q.drvAngle < TwoPi
  {
    hide Positive, Scale, AlignPhase, AlignAngle, Ramp;
    AlignAngleRange(s, o, r.drvAngle);
    RampRange(s.forceIq, s.alignDIq, s.alignIq);
    PhaseKeeps(s.(forceIq := Ramp(s.forceIq, s.alignDIq, s.alignIq)), o);
  }

  lemma ForceRange(s: Start, o: ObserverType, r: Run, theta: real)
    requires s.status == ForceDrive && InRange(s, r)
    ensures var n := Next(s, o);
            var q := Drives(s, n, o, r, theta);
      && InRange(n, q) && 0.0 <= n.forceIq <= CurrentLimit(s) && 0.0 <= q.drvAngle < TwoPi
  {
    hide Positive, Scale, Ramp;
    PositiveStep(r.drvAngle + Scale(s.forceWr + s.forceAcc, s.ts));
    RampRange(s.forceIq, s.forceDIq, s.forceMaxIq);
  }

  lemma AlignAngleRange(s: Start, o: ObserverType, angle: real)
    requires 0.0 <= angle < TwoPi
    ensures 0.0 <= AlignAngle(s, o, angle) < TwoPi
  {
    PositiveStep(angle + s.alignDTheta);
  }

  lemma RampRange(x: real, dx: real, limit: real)
    requires x >= 0.0 && dx >= 0.0 && limit >= 0.0
    ensures 0.0 <= Ramp(x, dx, limit) <= limit + dx
  {
  }

  lemma PhaseKeeps(s: Start, o: ObserverType)
    requires s.status == Align
    ensures var n := AlignPhase(s, o);
      && n.status in {Align, ForceDrive, CLStart}
      && n == s.(status := n.status, align := n.align, a1 := n.a1, a2 := n.a2, a3 := n.a3)
  {
  }

  // ----- How far the field turns --------------------------------------------------------

  /** The drive angle after `n` calls. */
  function Angles(s: Start, o: ObserverType, angle: real, theta: real, n: nat): real {
    if n == 0 then angle else
      AngleAfter(Calls(s, o, n - 1), Calls(s, o, n), o, Angles(s, o, angle, theta, n - 1), theta)
  }

  /** Equal up to whole turns, with the first on the turn. */
  lemma PositiveAdds(x: real, y: real)
    ensures Positive(Positive(x) + y) == Positive(x + y)
  {
    PositiveShift(Positive(x) + y, Turns(x));
    assert Positive(x) + y + Turns(x) as real * TwoPi == x + y;
    hide Positive, Turns;
  }

  lemma {:induction false} PositiveShift(a: real, k: int)
    ensures Positive(a + k as real * TwoPi) == Positive(a)
    decreases if k < 0 then -k else k
  {
    hide Positive;
    if k > 0 {
      PositiveShift(a, k - 1);
      PositiveStep(a + (k - 1) as real * TwoPi);
    } else if k < 0 {
      PositiveShift(a, k + 1);
      PositiveStep(a + k as real * TwoPi);
    }
  }

  /** The speeds of `n` forced calls, from a speed `wr` that rises by `acc` a call. */
  function SpeedSum(wr: real, acc: real, n: nat): real {
    if n == 0 then 0.0 else SpeedSum(wr, acc, n - 1) + (wr + Scale(n as real, acc))
  }

  /** In closed form: the start speed `n` times and the increment `n (n + 1) / 2` times. */
  lemma {:induction false} SpeedSumIs(wr: real, acc: real, n: nat)
    ensures SpeedSum(wr, acc, n) == Scale(n as real, wr) + Scale((n * (n + 1) / 2) as real, acc)
  {
    hide Scale;
    if n == 0 {
      ScaleNext(0, wr);
      ScaleNext(0, acc);
    } else {
      SpeedSumIs(wr, acc, n - 1);
      assert n * (n + 1) == (n - 1) * n + 2 * n;
      assert n * (n + 1) / 2 == (n - 1) * n / 2 + n;
      ScaleNext(n - 1, wr);
      ScaleSum((n - 1) * n / 2, n, acc);
    }
  }

  lemma ScaleSum(a: int, b: int, x: real)
    ensures Scale((a + b) as real, x) == Scale(a as real, x) + Scale(b as real, x)
  {
  }

  /** The forced speed after `n` calls. */
  lemma {:induction false} ForcedSpeed(s: Start, o: ObserverType, n: nat)
    requires s.status == ForceDrive && (n > 0 ==> Calls(s, o, n - 1).status == ForceDrive)
    ensures var t := Calls(s, o, n);
            t.forceWr == s.forceWr + Scale(n as real, s.forceAcc) && t.ts == s.ts && t.forceAcc == s.forceAcc
  {
    hide Ramp, Scale;
    ScaleNext(if n == 0 then 0 else n - 1, s.forceAcc);
    if n > 0 {
      StaysForced(s, o, n - 1);
      ForcedSpeed(s, o, n - 1);
      ForcedNext(Calls(s, o, n - 1), o);
    }
  }

  lemma ForcedNext(s: Start, o: ObserverType)
    requires s.status == ForceDrive
    ensures var t := Next(s, o); t.forceWr == s.forceWr + s.forceAcc && t.ts == s.ts && t.forceAcc == s.forceAcc
  {
    hide Ramp;
  }

  /** `n` calls in the forced drive turn the field by the sum of the forced speeds, each for one
      carrier period, up to whole turns. */
  lemma {:induction false} ForcedTurn(s: Start, o: ObserverType, angle: real, theta: real, n: nat)
    requires s.status == ForceDrive && 0.0 <= angle < TwoPi
    requires n > 0 ==> Calls(s, o, n - 1).status == ForceDrive
    ensures Angles(s, o, angle, theta, n) == Positive(angle + Scale(s.ts, SpeedSum(s.forceWr, s.forceAcc, n)))
  {
    hide Positive, Scale, Calls, AlignAngle;
    if n == 0 {
      PositiveStep(angle);
      TurnSum(s.ts, 0.0, 0.0);
    } else {
      StaysForced(s, o, n - 1);
      ForcedTurn(s, o, angle, theta, n - 1);
      ForcedSpeed(s, o, n);
      ForcedSpeed(s, o, n - 1);
      var x, w := SpeedSum(s.forceWr, s.forceAcc, n - 1), Calls(s, o, n).forceWr;
      TurnSum(s.ts, x, w);
      PositiveAdds(angle + Scale(s.ts, x), Scale(w, s.ts));
      assert angle + Scale(s.ts, x) + Scale(w, s.ts) == angle + Scale(s.ts, SpeedSum(s.forceWr, s.forceAcc, n));
    }
  }

  lemma TurnSum(ts: real, x: real, w: real)
    ensures Scale(ts, x + w) == Scale(ts, x) + Scale(w, ts) && Scale(ts, 0.0) == 0.0
  {
  }

  /** A sequence that is still forced has been forced all along. */
  lemma StaysForced(s: Start, o: ObserverType, n: nat)
    requires s.status == ForceDrive && Calls(s, o, n).status == ForceDrive
    ensures n > 0 ==> Calls(s, o, n - 1).status == ForceDrive
  {
    if n > 0 {
      NotForcedLater(s, o, n - 1);
    }
  }

  /** Until the start is finished, every call but the last one found it forced. */
  lemma LastForced(s: Start, o: ObserverType, n: nat)
    requires s.status == ForceDrive && Calls(s, o, n).status != Finish
    ensures n > 0 ==> Calls(s, o, n - 1).status == ForceDrive
  {
    if n > 0 {
      NotForcedLater(s, o, n - 1);
      hide Ramp;
    }
  }

  lemma {:induction false} NotForcedLater(s: Start, o: ObserverType, n: nat)
    requires s.status == ForceDrive
    ensures Calls(s, o, n).status == ForceDrive || Calls(s, o, n).status == CLStart || Calls(s, o, n).status == Finish
  {
    hide Ramp;
    if n > 0 {
      NotForcedLater(s, o, n - 1);
    }
  }

  /** `n` calls of the second alignment phase turn the field by `n` of its steps, up to whole turns,
      except that an encoder is aligned at angle zero. */
  lemma {:induction false} AlignTurn(s: Start, o: ObserverType, angle: real, theta: real, n: nat)
    requires s.status == Align && s.align == 1 && 0.0 <= angle < TwoPi && n <= AtLeastOne(s.a2)
    ensures Angles(s, o, angle, theta, n) ==
              if n > 0 && o == UseEncoder then 0.0 else Positive(angle + Scale(n as real, s.alignDTheta))
    ensures var t := Calls(s, o, n);
      && t.alignDTheta == s.alignDTheta && t.a2 == s.a2 - n && t.status == Align
      && t.align == (if n == AtLeastOne(s.a2) then 2 else 1)
  {
    hide Positive, Ramp, Scale;
    if n == 0 {
      ScaleNext(0, s.alignDTheta);
      PositiveStep(angle);
    } else {
      AlignTurn(s, o, angle, theta, n - 1);
      ScaleNext(n - 1, s.alignDTheta);
      PositiveAdds(angle + Scale((n - 1) as real, s.alignDTheta), s.alignDTheta);
    }
  }

  /** A whole second phase turns the field by the configured angle. */
  lemma WholeAlignTurn(c: Cfg, angle: real, theta: real)
    requires c.carrier > 0 && c.align2 >= 1 && c.observer != UseEncoder && 0.0 <= angle < TwoPi
    ensures var s := Cleared(c).(status := Align, align := 1);
            Angles(s, c.observer, angle, theta, c.align2) == Positive(angle + c.alignTheta)
  {
    hide Positive, Angles;
    var s := Cleared(c).(status := Align, align := 1);
    AlignTurn(s, c.observer, angle, theta, c.align2);
    assert Scale(c.align2 as real, c.alignTheta / c.align2 as real) == c.alignTheta;
  }

  // ----- How the current rises ----------------------------------------------------------

  /** The ramp rises by its step until it has reached the limit, and then stays there. */
  function Ramps(x: real, dx: real, limit: real, n: nat): real {
    if n == 0 then x else Ramp(Ramps(x, dx, limit, n - 1), dx, limit)
  }

  lemma {:induction false} RampRises(x: real, dx: real, limit: real, n: nat)
    requires dx >= 0.0 && x + n as real * dx < limit + dx
    ensures Ramps(x, dx, limit, n) == x + n as real * dx
  {
    if n > 0 {
      OneMore(n, dx);
      RampRises(x, dx, limit, n - 1);
    }
  }

  lemma OneMore(n: nat, x: real)
    requires n > 0
    ensures n as real * x == (n - 1) as real * x + x
  {
  }

  /** The configured first phase brings the current from zero to the alignment current in exactly its
      time. */
  lemma AlignRampReaches(c: Cfg, n: nat)
    requires c.carrier > 0 && c.alignIq >= 0.0 && c.align1 >= 1 && n <= c.align1
    ensures var s := Cleared(c);
            Ramps(s.forceIq, s.alignDIq, s.alignIq, n) == n as real * (c.alignIq / c.align1 as real)
    ensures c.align1 as real * (c.alignIq / c.align1 as real) == c.alignIq
  {
    var d := c.alignIq / c.align1 as real;
    assert c.align1 as real * d == c.alignIq;
    assert d >= 0.0;
    if d > 0.0 {
      MulOrder(n as real, c.align1 as real, d);
      RampRises(0.0, d, c.alignIq, n);
    } else {
      NoRamp(n);
      assert n as real * d == 0.0;
    }
  }

  lemma {:induction false} NoRamp(n: nat)
    ensures Ramps(0.0, 0.0, 0.0, n) == 0.0
  {
    if n > 0 {
      NoRamp(n - 1);
    }
  }

  /** While open loop, each call is one step of that ramp, toward the limit of its state. */
  lemma CurrentRamps(s: Start, o: ObserverType)
    requires OpenLoop(s.status)
    ensures Next(s, o).forceIq ==
              if s.status == Align then Ramp(s.forceIq, s.alignDIq, s.alignIq)
              else Ramp(s.forceIq, s.forceDIq, s.forceMaxIq)
  {
    hide Ramp;
  }

  lemma ClearedInRange(c: Cfg, r: Run)
    requires c.carrier > 0 && c.alignIq >= 0.0 && c.forceMaxIq >= 0.0 && c.forceDIq >= 0.0
    ensures InRange(Cleared(c), r) && Valid(Cleared(c), c.observer)
  {
    var s := Cleared(c);
    assert s.forceDIq >= 0.0;
    assert s.alignDIq >= 0.0;
  }
}
