/** Faults over whole runs: the over-current and bus-voltage bits of the running system, and faults
    that come and go unseen. */
module Faults {
  import opened Protection
  import opened SpaceVector
  import opened MotorTypes
  import opened Handlers
  import opened Lifecycle
  import opened Outputs

  // ----- The over-current bit in every run ----------------------------------------------

  /** The currents that the next over-current check will read. */
  function LastCurrents(events: seq<Event>): Currents {
    if events == [] then Currents(0.0, 0.0, 0.0) else
      var e := events[|events| - 1];
      if e.MainInterrupt? then e.i.adc else LastCurrents(events[..|events| - 1])
  }

  /** The verdicts of the checks so far: every main interrupt checks the sample before its own. */
  function Checked(events: seq<Event>, threshold: real): seq<bool> {
    if events == [] then [] else
      var before := events[..|events| - 1];
      if events[|events| - 1].MainInterrupt? then Checked(before, threshold) + [Over(LastCurrents(before), threshold)]
      else Checked(before, threshold)
  }

  ghost predicate OcAgrees(c: Cfg, m: Machine, events: seq<Event>) {
    && (m.oc, OcPeak in m.run.fault) == OcRun(c.oc, Checked(events, c.oc.threshold))
    && m.oc.threshold == c.oc.threshold
    && (Over(m.run.iuvw, c.oc.threshold) <==> Over(LastCurrents(events), c.oc.threshold))
  }

  lemma OcStepAgrees(c: Cfg, m: Machine, events: seq<Event>, e: Event)
    requires Valid(c, m) && OcAgrees(c, m, events)
    ensures OcAgrees(c, Step(c, m, e), events + [e])
  {
    hide Valid, MainLoopStep, MainIsrStep, TickerStep, Guard, Encoded, Starts, IsFresh, OcStep, Over, CfgOk, VbusStep;
    ConfigOk(c, m);
    assert (events + [e])[..|events|] == events;
    match e
    case MainLoop => MainLoopLaw(c, m);
    case MainInterrupt(i) =>
      MainIsrLaw(c, m, i);
      GuardLaw(m);
      OcStepThreshold(m.oc);
      OverSwapped(MainIsrStep(c, m, i).run.iuvw, i.adc, c.oc.threshold);
      OcRunLast(c.oc, Checked(events, c.oc.threshold), Over(LastCurrents(events), c.oc.threshold));
    case Tick(t) => TickLaw(c, m, t);
    case _ => OtherLaw(c, m, e);
  }

  lemma {:induction false} OcFollows(c: Cfg, events: seq<Event>)
    requires CfgOk(c)
    ensures OcAgrees(c, Reached(c, events), events)
    decreases |events|
  {
    hide Valid, Step, CfgOk, OcAgrees, Boot;
    if events == [] {
      BootAgrees(c);
    } else {
      var last := |events| - 1;
      assert events == events[..last] + [events[last]];
      OcFollows(c, events[..last]);
      ReachedValid(c, events[..last]);
      OcStepAgrees(c, Reached(c, events[..last]), events[..last], events[last]);
    }
  }

  lemma BootAgrees(c: Cfg)
    requires CfgOk(c)
    ensures OcAgrees(c, Boot(c), [])
  {
  }

  /** In every run of all the handlers the over-current bit of the fault word is its declarative
      meaning over the samples that the main interrupts took, whichever way the phases were
      swapped meanwhile. */
  lemma OverCurrentMeaning(c: Cfg, events: seq<Event>)
    requires CfgOk(c) && c.oc.trip >= 1 && c.oc.clear >= 1
    ensures OcPeak in Reached(c, events).run.fault <==>
              Tripped(Checked(events, c.oc.threshold), c.oc.trip, c.oc.clear)
  {
    hide Reached, CfgOk, OcRun, Checked, Tripped;
    OcFollows(c, events);
    OcBitMeaning(c.oc, Checked(events, c.oc.threshold));
  }

  // ----- A fault that comes and goes between two main-loop calls ------------------------

  function Interrupting(inputs: seq<MainIn>): (events: seq<Event>)
    ensures |events| == |inputs| && forall k :: 0 <= k < |inputs| ==> events[k] == MainInterrupt(inputs[k])
  {
    seq(|inputs|, k requires 0 <= k < |inputs| => MainInterrupt(inputs[k]))
  }

  lemma InterruptingSnoc(inputs: seq<MainIn>)
    requires inputs != []
    ensures var last := |inputs| - 1;
            Interrupting(inputs) == Interrupting(inputs[..last]) + [MainInterrupt(inputs[last])]
  {
  }

  /** A run of main interrupts keeps the command and every other bit, and leaves an idle motor
      idle. */
  lemma {:induction false} InterruptsKeep(c: Cfg, m: Machine, inputs: seq<MainIn>)
    requires Valid(c, m) && CfgOk(c)
    ensures var n := After(c, m, Interrupting(inputs));
      && n.cmd == m.cmd && (m.run.status == Idle ==> n.run.status == Idle)
      && (forall f :: f != OcPeak ==> (f in n.run.fault <==> f in m.run.fault))
    decreases |inputs|
  {
    hide Valid, MainIsrStep, Guard, Encoded, CfgOk;
    if inputs == [] {
      assert Interrupting(inputs) == [];
    } else {
      var last := |inputs| - 1;
      InterruptingSnoc(inputs);
      InterruptsKeep(c, m, inputs[..last]);
      AfterSnoc(c, m, Interrupting(inputs[..last]), MainInterrupt(inputs[last]));
      AfterValid(c, m, Interrupting(inputs[..last]));
      var n := After(c, m, Interrupting(inputs[..last]));
      MainIsrLaw(c, n, inputs[last]);
      GuardLaw(n);
    }
  }

  function Verdicts(inputs: seq<MainIn>, threshold: real): seq<bool> {
    seq(|inputs|, k requires 0 <= k < |inputs| => Over(inputs[k].adc, threshold))
  }

  /** The checks of a run of main interrupts: one on the sample before it, then all but its last. */
  lemma {:induction false} CheckedInterrupts(events: seq<Event>, inputs: seq<MainIn>, threshold: real)
    requires inputs != []
    ensures var last := |inputs| - 1;
      && LastCurrents(events + Interrupting(inputs)) == inputs[last].adc
      && Checked(events + Interrupting(inputs), threshold) ==
           Checked(events, threshold) + [Over(LastCurrents(events), threshold)] + Verdicts(inputs[..last], threshold)
    decreases |inputs|
  {
    hide Over, Interrupting;
    var last := |inputs| - 1;
    CheckedSnoc(events, inputs, threshold);
    if last == 0 {
      NoInterrupts(inputs[..0], threshold);
      assert events + [] == events;
    } else {
      CheckedInterrupts(events, inputs[..last], threshold);
      VerdictsSnoc(inputs[..last], threshold);
    }
  }

  lemma NoInterrupts(inputs: seq<MainIn>, threshold: real)
    requires inputs == []
    ensures Interrupting(inputs) == [] && Verdicts(inputs, threshold) == []
  {
  }

  lemma VerdictsSnoc(inputs: seq<MainIn>, threshold: real)
    requires inputs != []
    ensures var last := |inputs| - 1;
            Verdicts(inputs, threshold) == Verdicts(inputs[..last], threshold) + [Over(inputs[last].adc, threshold)]
  {
  }

  lemma CheckedSnoc(events: seq<Event>, inputs: seq<MainIn>, threshold: real)
    requires inputs != []
    ensures var last := |inputs| - 1;
            var before := events + Interrupting(inputs[..last]);
      && LastCurrents(events + Interrupting(inputs)) == inputs[last].adc
      && Checked(events + Interrupting(inputs), threshold) ==
           Checked(before, threshold) + [Over(LastCurrents(before), threshold)]
  {
    hide Over;
    var last := |inputs| - 1;
    InterruptingSnoc(inputs);
    var all, before := events + Interrupting(inputs), events + Interrupting(inputs[..last]);
    assert all[..|all| - 1] == before;
  }

  lemma RunAtEnd(history: seq<bool>, tail: seq<bool>, x: bool)
    requires forall k :: 0 <= k < |tail| ==> tail[k] == x
    ensures RunOf(history + tail, |history + tail|, |tail|, x)
  {
  }

  /** The trip time over the threshold, seen: the bit is up and the motor idle. */
  lemma FaultRises(c: Cfg, events: seq<Event>, inputs: seq<MainIn>)
    requires CfgOk(c) && c.oc.trip >= 1 && c.oc.clear >= 1 && |inputs| == c.oc.trip + 1
    requires forall k :: 0 <= k < c.oc.trip ==> Over(inputs[k].adc, c.oc.threshold)
    ensures var n := Reached(c, events + Interrupting(inputs));
            OcPeak in n.run.fault && n.run.status == Idle && n.pwm == Off
  {
    hide Valid, CfgOk, Over, Step, Boot, Checked, OcRun, MainIsrStep, Guard, Encoded;
    var last := |inputs| - 1;
    var h := Checked(events, c.oc.threshold) + [Over(LastCurrents(events), c.oc.threshold)];
    var tail := Verdicts(inputs[..last], c.oc.threshold);
    CheckedInterrupts(events, inputs, c.oc.threshold);
    RunAtEnd(h, tail, true);
    OverCurrentMeaning(c, events + Interrupting(inputs));
    assert !Released(h + tail, |h + tail|, c.oc.clear);
    InterruptingSnoc(inputs);
    var before := events + Interrupting(inputs[..last]);
    assert events + Interrupting(inputs) == before + [MainInterrupt(inputs[last])];
    ReachedSnoc(c, before, MainInterrupt(inputs[last]));
    ReachedValid(c, before);
    MainIsrLaw(c, Reached(c, before), inputs[last]);
    MainInterruptIsStep(c, Reached(c, before), inputs[last]);
  }

  /** The clear time under the threshold, seen: the bit is down. */
  lemma FaultClears(c: Cfg, events: seq<Event>, inputs: seq<MainIn>)
    requires CfgOk(c) && c.oc.trip >= 1 && c.oc.clear >= 1 && |inputs| == c.oc.clear + 1
    requires forall k :: 0 <= k < c.oc.clear ==> !Over(inputs[k].adc, c.oc.threshold)
    ensures OcPeak !in Reached(c, events + Interrupting(inputs)).run.fault
  {
    hide CfgOk, Over, Reached, Checked, OcRun, Tripped;
    var last := |inputs| - 1;
    var h := Checked(events, c.oc.threshold) + [Over(LastCurrents(events), c.oc.threshold)];
    var tail := Verdicts(inputs[..last], c.oc.threshold);
    CheckedInterrupts(events, inputs, c.oc.threshold);
    RunAtEnd(h, tail, false);
    TrailingIsRun(h + tail, false, c.oc.clear);
    OcFollows(c, events + Interrupting(inputs));
    OcBitMeaning(c.oc, h + tail);
  }

  /** A fault the main loop never sees. From any state a run reaches without a fault and with a
      pending command: `trip` over-threshold interrupts raise the fault and stop the motor, `clear`
      interrupts under the threshold take it away, and the next call of the main loop starts the
      motor again, with no command in between. */
  lemma RestartsAfterFault(c: Cfg, events: seq<Event>, over: seq<MainIn>, under: seq<MainIn>, i: MainIn)
    requires CfgOk(c) && c.oc.trip >= 1 && c.oc.clear >= 1 && |over| == c.oc.trip && |under| == c.oc.clear
    requires forall k :: 0 <= k < |over| ==> Over(over[k].adc, c.oc.threshold)
    requires forall k :: 0 <= k < |under| ==> !Over(under[k].adc, c.oc.threshold)
    requires Reached(c, events).run.fault == {} && Reached(c, events).cmd.cmdRpm != 0
    ensures var stopped := Reached(c, events + Interrupting(over + [under[0]]));
            var cleared := Reached(c, events + Interrupting(over + under + [i]));
            var restarted := Reached(c, events + Interrupting(over + under + [i]) + [MainLoop]);
      && OcPeak in stopped.run.fault && stopped.run.status == Idle
      && cleared.run.fault == {} && cleared.run.status == Idle && cleared.cmd == Reached(c, events).cmd
      && restarted.run.status == DrvRun && IsFresh(c, restarted)
  {
    hide Valid, CfgOk, Over, Step, Boot, MainLoopStep, Starts, IsFresh, LastCurrents, Checked, Interrupting, After;
    var first, rest := over + [under[0]], under[1..] + [i];
    var whole := over + under + [i];
    SplitRun(events, over, under, i);
    FaultRises(c, events, first);
    var m := Reached(c, events + Interrupting(first));
    ReachedValid(c, events);
    ReachedValid(c, events + Interrupting(first));
    AfterAppend(c, Boot(c), events, Interrupting(first));
    InterruptsKeep(c, Reached(c, events), first);
    AfterAppend(c, Boot(c), events + Interrupting(first), Interrupting(rest));
    InterruptsKeep(c, m, rest);
    FaultClears(c, events + Interrupting(over), under + [i]);
    var n := Reached(c, events + Interrupting(whole));
    NoOtherBits(Reached(c, events).run.fault, n.run.fault);
    ReachedValid(c, events + Interrupting(whole));
    MainLoopLaw(c, n);
    StartsHere(n);
    ReachedSnoc(c, events + Interrupting(whole), MainLoop);
    MainLoopIsStep(c, n);
  }

  lemma InterruptingAppend(a: seq<MainIn>, b: seq<MainIn>)
    ensures Interrupting(a + b) == Interrupting(a) + Interrupting(b)
  {
  }

  /** The run of both phases, cut where the fault has risen and where it starts to clear. */
  lemma SplitRun(events: seq<Event>, over: seq<MainIn>, under: seq<MainIn>, i: MainIn)
    requires under != []
    ensures var whole := events + Interrupting(over + under + [i]);
      && whole == (events + Interrupting(over + [under[0]])) + Interrupting(under[1..] + [i])
      && whole == (events + Interrupting(over)) + Interrupting(under + [i])
  {
    assert over + under + [i] == (over + [under[0]]) + (under[1..] + [i]) == over + (under + [i]);
    InterruptingAppend(over + [under[0]], under[1..] + [i]);
    InterruptingAppend(over, under + [i]);
    hide Interrupting;
  }

  lemma StartsHere(m: Machine)
    requires m.run.status == Idle && m.run.fault == {} && m.cmd.cmdRpm != 0
    ensures Starts(m)
  {
  }

  lemma MainLoopIsStep(c: Cfg, m: Machine)
    requires CfgOk(c)
    ensures Step(c, m, MainLoop) == MainLoopStep(c, m)
  {
  }

  // ----- The bus-voltage bits in every run ----------------------------------------------

  predicate BusBit(f: Fault) {
    f == VdcOv || f == VdcUv || f == VdcAbnorm
  }

  function ChannelOf(v: Vbus, f: Fault): Channel {
    if f == VdcOv then v.ovp else if f == VdcUv then v.uvp else v.abnormal
  }

  /** The reading counts toward the bit. */
  predicate Bad(v: Vbus, f: Fault, volts: real) {
    if f == VdcOv then volts >= v.ovpThreshold
    else if f == VdcUv then volts <= v.uvpThreshold
    else volts >= v.abnormalHigh || volts <= v.abnormalLow
  }

  /** The last reading of the bus and its average, from the events alone. */
  function BusOf(events: seq<Event>): (real, real) {
    if events == [] then (0.0, 0.0) else
      var (volts, avg) := BusOf(events[..|events| - 1]);
      match events[|events| - 1]
      case MainInterrupt(i) => (i.vbus, avg)
      case AdcCheck(v, _) => (v, avg)
      case Tick(_) => (volts, avg - 0.8 * (avg - volts))
      case _ => (volts, avg)
  }

  /** The verdicts of the ticks on their averages. */
  function BadTicks(v: Vbus, f: Fault, events: seq<Event>): seq<bool> {
    if events == [] then [] else
      var before := BadTicks(v, f, events[..|events| - 1]);
      if events[|events| - 1].Tick? then before + [Bad(v, f, BusOf(events).1)] else before
  }

  ghost predicate BusAgrees(c: Cfg, m: Machine, f: Fault, events: seq<Event>) {
    && (m.run.vbus, m.run.avgVbus) == BusOf(events)
    && m.vbus == c.vbus.(ovp := m.vbus.ovp, uvp := m.vbus.uvp, abnormal := m.vbus.abnormal)
    && (ChannelOf(m.vbus, f), f in m.run.fault) ==
         ChannelRun(ChannelOf(Unfilled(c.vbus), f), false, BadTicks(c.vbus, f, events))
  }

  /** One reading moves the bit and its channel by the channel's step. */
  lemma ChannelOfStep(v: Vbus, w: FaultWord, f: Fault, volts: real)
    requires BusBit(f)
    ensures var (u, x) := VbusStep(v, w, volts);
      && u == v.(ovp := u.ovp, uvp := u.uvp, abnormal := u.abnormal)
      && (ChannelOf(u, f), f in x) == ChannelStep(ChannelOf(v, f), f in w, Bad(v, f, volts))
  {
    hide VbusStep, ChannelStep;
    StepBits(v, w, volts);
  }

  lemma BadByThresholds(v: Vbus, u: Vbus, f: Fault, volts: real)
    requires u == v.(ovp := u.ovp, uvp := u.uvp, abnormal := u.abnormal)
    ensures Bad(u, f, volts) <==> Bad(v, f, volts)
  {
  }

  lemma BusTickAgrees(c: Cfg, m: Machine, f: Fault, events: seq<Event>, t: TickIn)
    requires Valid(c, m) && BusBit(f) && BusAgrees(c, m, f, events)
    ensures BusAgrees(c, Step(c, m, Tick(t)), f, events + [Tick(t)])
  {
    hide Valid, TickerStep, ChannelStep, CfgOk, VbusStep, Bad, BusBit, ChannelOf;
    ConfigOk(c, m);
    assert (events + [Tick(t)])[..|events|] == events;
    TickLaw(c, m, t);
    ChannelOfStep(m.vbus, m.run.fault, f, BusAverage(m.run));
    BadByThresholds(c.vbus, m.vbus, f, BusAverage(m.run));
    ChannelRunLast(ChannelOf(Unfilled(c.vbus), f), false, BadTicks(c.vbus, f, events),
                   Bad(c.vbus, f, BusOf(events + [Tick(t)]).1));
  }

  /** Any other event leaves the channels and the average alone. */
  lemma BusOtherAgrees(c: Cfg, m: Machine, n: Machine, f: Fault, events: seq<Event>, e: Event)
    requires BusAgrees(c, m, f, events) && !e.Tick?
    requires n.vbus == m.vbus && (f in n.run.fault <==> f in m.run.fault) && n.run.avgVbus == m.run.avgVbus
    requires n.run.vbus == match e case MainInterrupt(i) => i.vbus case AdcCheck(v, _) => v case _ => m.run.vbus
    ensures BusAgrees(c, n, f, events + [e])
  {
    hide ChannelOf, ChannelRun, Unfilled, Bad;
    assert (events + [e])[..|events|] == events;
  }

  /** A main interrupt reads the bus and leaves its supervision alone. */
  lemma BusInterrupt(c: Cfg, m: Machine, f: Fault, i: MainIn)
    requires Valid(c, m) && BusBit(f)
    ensures var n := MainIsrStep(c, m, i);
      && n.vbus == m.vbus && n.run.avgVbus == m.run.avgVbus && n.run.vbus == i.vbus
      && (f in n.run.fault <==> f in m.run.fault)
  {
    hide Valid, MainIsrStep, Guard, Encoded, CfgOk;
    MainIsrLaw(c, m, i);
    GuardLaw(m);
  }

  lemma BusStepAgrees(c: Cfg, m: Machine, f: Fault, events: seq<Event>, e: Event)
    requires Valid(c, m) && BusBit(f) && BusAgrees(c, m, f, events)
    ensures BusAgrees(c, Step(c, m, e), f, events + [e])
  {
    hide Valid, MainLoopStep, MainIsrStep, TickerStep, Guard, Encoded, Starts, IsFresh, CfgOk, BusAgrees, VbusStep;
    ConfigOk(c, m);
    if e.Tick? {
      BusTickAgrees(c, m, f, events, e.t);
    } else {
      match e {
        case MainLoop => MainLoopLaw(c, m);
        case MainInterrupt(i) => BusInterrupt(c, m, f, i);
        case _ => OtherLaw(c, m, e);
      }
      BusOtherAgrees(c, m, Step(c, m, e), f, events, e);
    }
  }

  lemma ChannelRunLast(c: Channel, up: bool, history: seq<bool>, x: bool)
    ensures var (d, u) := ChannelRun(c, up, history); ChannelRun(c, up, history + [x]) == ChannelStep(d, u, x)
  {
    hide ChannelStep;
    assert (history + [x])[..|history|] == history;
  }

  /** In every run of all the handlers, reading and average of the bus are those of the events, and
      each of the three bits with its counter is the run of its own channel over the averages of
      the ticks. */
  lemma {:induction false} BusFollows(c: Cfg, f: Fault, events: seq<Event>)
    requires CfgOk(c) && BusBit(f)
    ensures BusAgrees(c, Reached(c, events), f, events)
    decreases |events|
  {
    hide Valid, Step, CfgOk, BusAgrees, Boot, BusBit;
    if events == [] {
      BootBusAgrees(c, f);
    } else {
      var last := |events| - 1;
      assert events == events[..last] + [events[last]];
      BusFollows(c, f, events[..last]);
      ReachedValid(c, events[..last]);
      BusStepAgrees(c, Reached(c, events[..last]), f, events[..last], events[last]);
    }
  }

  lemma BootBusAgrees(c: Cfg, f: Fault)
    requires CfgOk(c)
    ensures BusAgrees(c, Boot(c), f, [])
  {
  }

  lemma {:induction false} ChannelRunAppend(c: Channel, up: bool, a: seq<bool>, b: seq<bool>)
    ensures var (d, u) := ChannelRun(c, up, a); ChannelRun(c, up, a + b) == ChannelRun(d, u, b)
    decreases |b|
  {
    hide ChannelStep;
    if b == [] {
      assert a + b == a;
    } else {
      ChannelRunAppend(c, up, a, b[..|b| - 1]);
      assert (a + b)[..|a + b| - 1] == a + b[..|b| - 1];
    }
  }

  lemma {:induction false} BadTicksGrow(v: Vbus, f: Fault, a: seq<Event>, b: seq<Event>)
    ensures |BadTicks(v, f, a)| <= |BadTicks(v, f, a + b)|
    ensures BadTicks(v, f, a + b)[..|BadTicks(v, f, a)|] == BadTicks(v, f, a)
    decreases |b|
  {
    hide Bad, BusOf;
    if b == [] {
      assert a + b == a;
    } else {
      BadTicksGrow(v, f, a, b[..|b| - 1]);
      assert (a + b)[..|a + b| - 1] == a + b[..|b| - 1];
    }
  }

  /** The verdicts of the ticks in `b`, after the events `a`. */
  function Since(v: Vbus, f: Fault, a: seq<Event>, b: seq<Event>): seq<bool> {
    BadTicksGrow(v, f, a, b);
    BadTicks(v, f, a + b)[|BadTicks(v, f, a)|..]
  }

  /** The hysteresis of the bus bits in the running system. If an event clears a bit and it is up
      again after further events, these hold at least time + 1 ticks with a bad average; if an
      event sets it and it is down again, at least time + 1 ticks with a good one. */
  lemma BusHysteresis(c: Cfg, f: Fault, a: seq<Event>, e: Event, b: seq<Event>)
    requires CfgOk(c) && BusBit(f) && ChannelOf(c.vbus, f).time >= 0
    ensures var up0, up1, up2 := f in Reached(c, a).run.fault, f in Reached(c, a + [e]).run.fault,
                                 f in Reached(c, a + [e] + b).run.fault;
            var ticks := Since(c.vbus, f, a + [e], b);
      && (up0 && !up1 && up2 ==> Count(ticks, true) >= ChannelOf(c.vbus, f).time + 1)
      && (!up0 && up1 && !up2 ==> Count(ticks, false) >= ChannelOf(c.vbus, f).time + 1)
  {
    hide CfgOk, Reached, Bad, BusOf, ChannelStep, Count, ChannelRun, BadTicks, BusBit;
    var start := ChannelOf(Unfilled(c.vbus), f);
    var h, all := BadTicks(c.vbus, f, a), BadTicks(c.vbus, f, a + [e] + b);
    var h1, ticks := BadTicks(c.vbus, f, a + [e]), Since(c.vbus, f, a + [e], b);
    BusFollows(c, f, a);
    BusFollows(c, f, a + [e]);
    BusFollows(c, f, a + [e] + b);
    BadTicksGrow(c.vbus, f, a + [e], b);
    assert all == h1 + ticks;
    ChannelRunAppend(start, false, h1, ticks);
    UnfilledChannel(c.vbus, f);
    ChannelDebounces(start, false, h);
    var (d, up) := ChannelRun(start, false, h);
    if e.Tick? {
      BadTicksTick(c.vbus, f, a, e);
      ChannelRunLast(start, false, h, Bad(c.vbus, f, BusOf(a + [e]).1));
      ChannelHysteresis(d, up, Bad(c.vbus, f, BusOf(a + [e]).1), ticks);
    } else {
      BadTicksOther(c.vbus, f, a, e);
    }
  }

  lemma UnfilledChannel(v: Vbus, f: Fault)
    requires ChannelOf(v, f).time >= 0
    ensures var c := ChannelOf(Unfilled(v), f); ChannelValid(c) && c.time == ChannelOf(v, f).time && c.cnt == 0
  {
  }

  lemma BadTicksTick(v: Vbus, f: Fault, a: seq<Event>, e: Event)
    requires e.Tick?
    ensures BadTicks(v, f, a + [e]) == BadTicks(v, f, a) + [Bad(v, f, BusOf(a + [e]).1)]
  {
    hide Bad, BusOf;
    assert (a + [e])[..|a|] == a;
  }

  lemma BadTicksOther(v: Vbus, f: Fault, a: seq<Event>, e: Event)
    requires !e.Tick?
    ensures BadTicks(v, f, a + [e]) == BadTicks(v, f, a)
  {
    hide Bad, BusOf;
    assert (a + [e])[..|a|] == a;
  }
}
