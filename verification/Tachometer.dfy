/** The two step tachometers: `update_rpm_tacho` and `commutate` of mcpwm.c, and the tachometer
    part of `mcpwm_foc_adc_int_handler`. */
module Tachometer {
  import opened Numeric
  import opened Trig

  /** A difference of steps, folded into [-2, 3]. */
  function Fold(d: int): int {
    if d > 3 then d - 6 else if d < -2 then d + 6 else d
  }

  /** Equal up to whole turns of six steps. */
  predicate Same(a: int, b: int) {
    (a - b) % 6 == 0
  }

  lemma FoldLaw(d: int)
    requires -5 <= d <= 5
    ensures -2 <= Fold(d) <= 3 && Same(Fold(d), d)
    ensures Fold(d) == d <==> -2 <= d <= 3
  {
  }

  /** C's remainder keeps the residue, whatever the sign. */
  lemma CRemLaw(d: int)
    ensures -5 <= CRem(d, 6) <= 5 && Same(CRem(d, 6), d)
  {
  }

  lemma SameIsEqual(a: int, b: int)
    requires Same(a, b)
    ensures -6 < a - b < 6 ==> a == b
  {
  }

  lemma SameIsRemainder(a: int, b: int)
    ensures Same(a, b) <==> a % 6 == b % 6
  {
  }

  lemma SameTransitive(a: int, b: int, c: int)
    requires Same(a, b) && Same(b, c)
    ensures Same(a, c)
  {
    SameIsRemainder(a, b);
    SameIsRemainder(b, c);
    SameIsRemainder(a, c);
    hide Same;
  }

  lemma SameShift(a: int, b: int, c: int, d: int)
    requires a - b == c - d || a - b == d - c
    ensures Same(a, b) <==> Same(c, d)
  {
  }

  // ----- Block commutation --------------------------------------------------------------

  datatype Tacho = Tacho(commStep: int, lastStep: int, comms: int, forDirection: int, absolute: int, tacho: int)

  function Diff(t: Tacho): int {
    Fold(CRem(t.commStep - 1 - t.lastStep, 6))
  }

  /** All four counters move by the same folded difference; `tachometer_abs` too is signed. */
  function Update(t: Tacho, direction: bool): Tacho {
    var d := Diff(t);
    t.(lastStep := t.commStep - 1, comms := t.comms + d, forDirection := t.forDirection + d,
       absolute := t.absolute + d, tacho := if direction then t.tacho + d else t.tacho - d)
  }

  /** The commutation step in 1 to 6. */
  function WrapStep(s: int): int {
    (s - 1) % 6 + 1
  }

  function Commutated(t: Tacho, steps: int, direction: bool): Tacho {
    Update(t.(commStep := WrapStep(t.commStep + steps)), direction)
  }

  lemma WrapStepTurn(s: int)
    ensures WrapStep(s + 6) == WrapStep(s)
    ensures 1 <= s <= 6 ==> WrapStep(s) == s
  {
  }

  class Commutator {
    var commStep: int
    var lastStep: int
    var comms: int
    var forDirection: int
    var absolute: int
    var tacho: int

    function Value(): Tacho
      reads this
    {
      Tacho(commStep, lastStep, comms, forDirection, absolute, tacho)
    }

    constructor ()
      ensures Value() == Tacho(1, 0, 0, 0, 0, 0)
    {
      commStep, lastStep, comms, forDirection, absolute, tacho := 1, 0, 0, 0, 0, 0;
    }

    method UpdateRpmTacho(direction: bool)
      modifies this
      ensures Value() == Update(old(Value()), direction)
      ensures commStep == old(commStep)
    {
      hide CRem;
      var step := commStep - 1;
      var diff := CRem(step - lastStep, 6);
      lastStep := step;
      if diff > 3 {
        diff := diff - 6;
      } else if diff < -2 {
        diff := diff + 6;
      }
      if diff != 0 {
        comms := comms + diff;
      }
      forDirection := forDirection + diff;
      absolute := absolute + diff;
      if direction {
        tacho := tacho + diff;
      } else {
        tacho := tacho - diff;
      }
    }

    /** The sensorless branch; with a sensor `commutate` leaves step and counters alone. */
    method Commutate(steps: int, sensorless: bool, direction: bool)
      modifies this
      ensures Value() == if sensorless then Commutated(old(Value()), steps, direction) else old(Value())
      ensures sensorless ==> 1 <= commStep <= 6
    {
      hide WrapStep, Update;
      if sensorless {
        commStep := commStep + steps;
        while commStep > 6
          invariant Value() == old(Value()).(commStep := commStep)
          invariant WrapStep(commStep) == WrapStep(old(commStep) + steps)
        {
          WrapStepTurn(commStep - 6);
          commStep := commStep - 6;
        }
        while commStep < 1
          invariant commStep <= 6
          invariant Value() == old(Value()).(commStep := commStep)
          invariant WrapStep(commStep) == WrapStep(old(commStep) + steps)
        {
          WrapStepTurn(commStep);
          commStep := commStep + 6;
        }
        WrapStepTurn(commStep);
        UpdateRpmTacho(direction);
      }
    }
  }

  lemma DiffLaw(t: Tacho)
    ensures -2 <= Diff(t) <= 3 && Same(Diff(t), t.commStep - 1 - t.lastStep)
  {
    hide Fold, CRem, Same;
    var d := t.commStep - 1 - t.lastStep;
    CRemLaw(d);
    FoldLaw(CRem(d, 6));
    SameTransitive(Diff(t), CRem(d, 6), d);
  }

  lemma UpdateConserves(t: Tacho, direction: bool)
    ensures var u := Update(t, direction); Same(u.forDirection - u.lastStep, t.forDirection - t.lastStep)
  {
    hide Same, Diff;
    DiffLaw(t);
    var u := Update(t, direction);
    SameShift(Diff(t), t.commStep - 1 - t.lastStep, u.forDirection - u.lastStep, t.forDirection - t.lastStep);
  }

  /** The tachometer is in step with the commutation. */
  predicate Synced(t: Tacho) {
    1 <= t.commStep <= 6 && t.lastStep == t.commStep - 1
  }

  /** From a synchronised state the tachometer moves by the commanded steps exactly when they
      lie in [-2, 3]. */
  lemma CommutateExact(t: Tacho, steps: int, direction: bool)
    requires Synced(t)
    ensures var u := Commutated(t, steps, direction);
      && Synced(u) && Same(u.commStep, t.commStep + steps) && Same(u.forDirection, t.forDirection + steps)
      && (u.forDirection == t.forDirection + steps <==> -2 <= steps <= 3)
  {
    hide Same, Diff, WrapStep;
    var t' := t.(commStep := WrapStep(t.commStep + steps));
    var moved := t'.commStep - 1 - t'.lastStep;
    WrapStepLaw(t.commStep + steps);
    DiffLaw(t');
    SameShift(t'.commStep, t.commStep + steps, moved, steps);
    SameTransitive(Diff(t'), moved, steps);
    var u := Commutated(t, steps, direction);
    SameShift(Diff(t'), steps, u.forDirection, t.forDirection + steps);
    if -2 <= steps <= 3 {
      SameIsEqual(Diff(t'), steps);
    }
  }

  lemma WrapStepLaw(s: int)
    ensures 1 <= WrapStep(s) <= 6 && Same(WrapStep(s), s)
  {
  }

  /** What moves the commutation: sensorless commutation, a hall reading followed by an update,
      and assignments of the step with no update. */
  datatype Event = Commutate(steps: int, direction: bool) | Hall(phase: int, direction: bool) | Assign(phase: int)

  function Apply(t: Tacho, e: Event): Tacho {
    match e
    case Commutate(steps, direction) => Commutated(t, steps, direction)
    case Hall(phase, direction) => Update(t.(commStep := phase), direction)
    case Assign(phase) => t.(commStep := phase)
  }

  function Run(t: Tacho, events: seq<Event>): Tacho
    decreases |events|
  {
    if events == [] then t else Apply(Run(t, events[..|events| - 1]), events[|events| - 1])
  }

  /** Over every run the sum of the differences stays congruent to the last step, and the three
      direction-free counters stay together. */
  lemma {:induction false} Conserved(t: Tacho, events: seq<Event>)
    ensures var u := Run(t, events);
      && Same(u.forDirection - u.lastStep, t.forDirection - t.lastStep)
      && u.forDirection - t.forDirection == u.absolute - t.absolute == u.comms - t.comms
    decreases |events|
  {
    if events != [] {
      hide Same, Diff, WrapStep;
      var before, e := events[..|events| - 1], events[|events| - 1];
      Conserved(t, before);
      var u, v := Run(t, before), Run(t, events);
      match e {
        case Commutate(steps, direction) =>
          UpdateConserves(u.(commStep := WrapStep(u.commStep + steps)), direction);
        case Hall(phase, direction) =>
          UpdateConserves(u.(commStep := phase), direction);
        case Assign(phase) =>
          SameShift(0, 0, v.forDirection - v.lastStep, u.forDirection - u.lastStep);
      }
      SameTransitive(v.forDirection - v.lastStep, u.forDirection - u.lastStep, t.forDirection - t.lastStep);
    }
  }

  function Steps(events: seq<Event>): int
    requires forall k :: 0 <= k < |events| ==> events[k].Commutate?
    decreases |events|
  {
    if events == [] then 0 else Steps(events[..|events| - 1]) + events[|events| - 1].steps
  }

  /** Sensorless running never loses a step: the tachometer is the sum of the commanded steps,
      and with a constant direction flag so is the signed tachometer. */
  lemma {:induction false} SensorlessExact(t: Tacho, events: seq<Event>, direction: bool)
    requires Synced(t)
    requires forall k :: 0 <= k < |events| ==>
               events[k].Commutate? && -2 <= events[k].steps <= 3 && events[k].direction == direction
    ensures var u := Run(t, events);
      && Synced(u)
      && u.forDirection == t.forDirection + Steps(events)
      && u.tacho == t.tacho + (if direction then Steps(events) else -Steps(events))
    decreases |events|
  {
    if events != [] {
      var before, e := events[..|events| - 1], events[|events| - 1];
      SensorlessExact(t, before, direction);
      CommutateExact(Run(t, before), e.steps, direction);
      hide Diff, WrapStep;
    }
  }

  // ----- Field-oriented control ---------------------------------------------------------

  datatype FocTacho = FocTacho(lastStep: int, tacho: int, absolute: int)

  /** The sixth of a turn the phase lies in. */
  function PhaseStep(phase: real): int {
    TruncateInt(((Normal(phase) + Pi) / (2.0 * Pi) * 6.0).Floor, 0, 5)
  }

  function FocDiff(t: FocTacho, step: int): int {
    Fold(step - t.lastStep)
  }

  function FocUpdate(t: FocTacho, phase: real): FocTacho {
    var step := PhaseStep(phase);
    var d := FocDiff(t, step);
    FocTacho(step, t.tacho + d, t.absolute + if d < 0 then -d else d)
  }

  class FocMotor {
    var lastStep: int
    var tacho: int
    var absolute: int

    function Value(): FocTacho
      reads this
    {
      FocTacho(lastStep, tacho, absolute)
    }

    constructor ()
      ensures Value() == FocTacho(0, 0, 0)
    {
      lastStep, tacho, absolute := 0, 0, 0;
    }

    method UpdateTachometer(phase: real)
      modifies this
      ensures Value() == FocUpdate(old(Value()), phase)
    {
      var ph := NormAngleRad(phase);
      hide Normal;
      var step := ((ph + Pi) / (2.0 * Pi) * 6.0).Floor;
      step := TruncateInt(step, 0, 5);
      var diff := step - lastStep;
      lastStep := step;
      if diff > 3 {
        diff := diff - 6;
      } else if diff < -2 {
        diff := diff + 6;
      }
      tacho := tacho + diff;
      absolute := absolute + if diff < 0 then -diff else diff;
    }
  }

  /** The sixth of a turn of an unwrapped angle. */
  function Sixth(phase: real): int {
    ((phase + Pi) / TwoPi * 6.0).Floor
  }

  /** Normalising the angle takes whole turns off the sixth, and the truncation never acts. */
  lemma PhaseStepIsSixth(phase: real)
    ensures 0 <= PhaseStep(phase) <= 5 && Same(PhaseStep(phase), Sixth(phase))
  {
    NormalStep(phase);
    var k, n := WholeTurns(phase), Normal(phase);
    var x := (n + Pi) / TwoPi * 6.0;
    assert (phase + Pi) / TwoPi * 6.0 == x + 6.0 * k as real;
    assert 0.0 <= x < 6.0;
    assert Sixth(phase) == x.Floor + 6 * k;
  }

  function FocRun(t: FocTacho, phases: seq<real>): FocTacho
    decreases |phases|
  {
    if phases == [] then t else FocUpdate(FocRun(t, phases[..|phases| - 1]), phases[|phases| - 1])
  }

  function LastPhase(phases: seq<real>, phase: real): real {
    if phases == [] then phase else phases[|phases| - 1]
  }

  /** The unwrapped angle moves by -2 to 3 sixths between calls. */
  ghost predicate SlowPhases(phases: seq<real>, phase: real)
    decreases |phases|
  {
    phases == [] ||
    var before := phases[..|phases| - 1];
    SlowPhases(before, phase) && -2 <= Sixth(phases[|phases| - 1]) - Sixth(LastPhase(before, phase)) <= 3
  }

  /** Whatever the phases, the tachometer stays congruent to the last step and never moves more
      than the absolute one. */
  lemma {:induction false} FocConserved(t: FocTacho, phases: seq<real>)
    requires 0 <= t.lastStep <= 5
    ensures var u := FocRun(t, phases);
      && 0 <= u.lastStep <= 5 && Same(u.tacho - u.lastStep, t.tacho - t.lastStep)
      && -(u.absolute - t.absolute) <= u.tacho - t.tacho <= u.absolute - t.absolute
    decreases |phases|
  {
    if phases != [] {
      hide Same, PhaseStep, Sixth, Fold;
      var before, p := phases[..|phases| - 1], phases[|phases| - 1];
      FocConserved(t, before);
      PhaseStepIsSixth(p);
      var u, v := FocRun(t, before), FocRun(t, phases);
      var d := v.lastStep - u.lastStep;
      FoldLaw(d);
      SameShift(Fold(d), d, v.tacho - v.lastStep, u.tacho - u.lastStep);
      SameTransitive(v.tacho - v.lastStep, u.tacho - u.lastStep, t.tacho - t.lastStep);
    }
  }

  /** While the angle moves by -2 to 3 sixths between calls the tachometer is the unwrapped
      angle in sixths of a turn, over any number of turns. */
  lemma {:induction false} FocTracks(t: FocTacho, phases: seq<real>, phase: real)
    requires 0 <= t.lastStep <= 5 && Same(t.lastStep, Sixth(phase)) && SlowPhases(phases, phase)
    ensures var u := FocRun(t, phases);
      && 0 <= u.lastStep <= 5 && Same(u.lastStep, Sixth(LastPhase(phases, phase)))
      && u.tacho - Sixth(LastPhase(phases, phase)) == t.tacho - Sixth(phase)
    decreases |phases|
  {
    hide Same, PhaseStep, Sixth, Fold;
    if phases != [] {
      var before, p := phases[..|phases| - 1], phases[|phases| - 1];
      FocTracks(t, before, phase);
      PhaseStepIsSixth(p);
      var u, q := FocRun(t, before), LastPhase(before, phase);
      var d, moved := PhaseStep(p) - u.lastStep, Sixth(p) - Sixth(q);
      FoldLaw(d);
      SameDifference(PhaseStep(p), Sixth(p), u.lastStep, Sixth(q));
      SameTransitive(Fold(d), d, moved);
      SameIsEqual(Fold(d), moved);
    }
  }

  lemma SameDifference(a: int, b: int, c: int, d: int)
    requires Same(a, b) && Same(c, d)
    ensures Same(a - c, b - d)
  {
  }
}
