/** The current limits: the tail of `update_override_limits` and the set-point clamps of
    `mcpwm_foc_adc_int_handler` that consume them. */
module CurrentLimits {
  import opened Numeric

  // ----- Folding the limits -------------------------------------------------------------

  /** `utils_min_abs`. */
  function MinAbs(x: real, y: real): real {
    if Abs(x) < Abs(y) then x else y
  }

  /** `utils_max_abs`. */
  function MaxAbs(x: real, y: real): real {
    if Abs(x) > Abs(y) then x else y
  }

  /** The limits computed for one motor, in the order they are folded. */
  datatype Candidates = Candidates(mosMax: real, motMax: real, rpmMax: real, rpmMin: real, currDec: real,
                                   fetAccel: real, motorAccel: real, duty: real, inputCurrent: real,
                                   mosMin: real, motMin: real)

  function UpperLimits(c: Candidates): seq<real> {
    [c.mosMax, c.motMax, c.rpmMax, c.rpmMin, c.currDec, c.fetAccel, c.motorAccel, c.duty, c.inputCurrent]
  }

  /** `m` is a smallest-magnitude element of `xs`. */
  ghost predicate Smallest(m: real, xs: seq<real>) {
    m in xs && forall x :: x in xs ==> Abs(m) <= Abs(x)
  }

  lemma SmallestExtend(m: real, xs: seq<real>, x: real)
    requires Smallest(m, xs)
    ensures Smallest(MinAbs(m, x), xs + [x])
  {
    var ys := xs + [x];
    assert ys[|xs|] == x;
    forall y | y in ys
      ensures Abs(MinAbs(m, x)) <= Abs(y)
    {
      assert y in xs || y == x;
    }
  }

  /** Tail of `update_override_limits`: the smallest limit of each direction, then forced to
      leave at least `ccMin` either way. Whatever the temperatures, speed and duty say, zero
      stays inside the motor-current limits. */
  method FoldLimits(c: Candidates, ccMin: real) returns (loMax: real, loMin: real)
    ensures loMax >= ccMin && loMin <= -ccMin
    ensures ccMin >= 0.0 ==> loMin <= 0.0 <= loMax
    ensures exists m :: Smallest(m, UpperLimits(c)) && loMax == Max(m, ccMin)
    ensures exists m :: Smallest(m, [c.mosMin, c.motMin]) && loMin == Min(m, -ccMin)
  {
    hide Abs, MinAbs, Smallest;
    SmallestStart(c.mosMax, c.motMax);
    loMax := MinAbs(c.mosMax, c.motMax);
    SmallestStart(c.mosMin, c.motMin);
    loMin := MinAbs(c.mosMin, c.motMin);

    ghost var seen := [c.mosMax, c.motMax];
    SmallestExtend(loMax, seen, c.rpmMax);
    loMax, seen := MinAbs(loMax, c.rpmMax), seen + [c.rpmMax];
    SmallestExtend(loMax, seen, c.rpmMin);
    loMax, seen := MinAbs(loMax, c.rpmMin), seen + [c.rpmMin];
    SmallestExtend(loMax, seen, c.currDec);
    loMax, seen := MinAbs(loMax, c.currDec), seen + [c.currDec];
    SmallestExtend(loMax, seen, c.fetAccel);
    loMax, seen := MinAbs(loMax, c.fetAccel), seen + [c.fetAccel];
    SmallestExtend(loMax, seen, c.motorAccel);
    loMax, seen := MinAbs(loMax, c.motorAccel), seen + [c.motorAccel];
    SmallestExtend(loMax, seen, c.duty);
    loMax, seen := MinAbs(loMax, c.duty), seen + [c.duty];
    SmallestExtend(loMax, seen, c.inputCurrent);
    loMax, seen := MinAbs(loMax, c.inputCurrent), seen + [c.inputCurrent];
    assert seen == UpperLimits(c);
    ghost var m := loMax;

    if loMax < ccMin {
      loMax := ccMin;
    }
    ghost var n := loMin;
    if loMin > -ccMin {
      loMin := -ccMin;
    }
    assert loMax == Max(m, ccMin) && loMin == Min(n, -ccMin);
  }

  lemma SmallestStart(x: real, y: real)
    ensures Smallest(MinAbs(x, y), [x, y])
  {
    assert [x, y][0] == x && [x, y][1] == y;
  }

  // ----- Set-point clamps ---------------------------------------------------------------

  /** One truncation after another satisfies both limits, for every set-point, exactly when
      the two intervals meet. */
  lemma TruncationsCompatible(lo1: real, hi1: real, lo2: real, hi2: real)
    requires lo1 <= hi1 && lo2 <= hi2
    ensures (forall x :: var y := Truncate(Truncate(x, lo1, hi1), lo2, hi2); lo1 <= y <= hi1 && lo2 <= y <= hi2)
            <==> lo1 <= hi2 && lo2 <= hi1
  {
    if !(lo1 <= hi2 && lo2 <= hi1) {
      var y := Truncate(Truncate(lo1, lo1, hi1), lo2, hi2);
      assert !(lo1 <= y <= hi1 && lo2 <= y <= hi2);
    }
  }

  /** Truncating twice is truncating once to the common part. */
  lemma TruncateTwice(x: real, lo1: real, hi1: real, lo2: real, hi2: real)
    requires lo1 <= hi1 && lo2 <= hi2 && lo1 <= hi2 && lo2 <= hi1
    ensures Truncate(Truncate(x, lo1, hi1), lo2, hi2) == Truncate(x, Max(lo1, lo2), Min(hi1, hi2))
  {
  }

  datatype Limits = Limits(inMin: real, inMax: real, curMin: real, curMax: real)

  datatype Interval = Interval(lo: real, hi: real)

  /** Bounds on iq from the input current; without modulation there are none. */
  function InputBounds(l: Limits, modQ: real, free: Interval): Interval {
    if modQ > 0.001 then Interval(l.inMin / modQ, l.inMax / modQ)
    else if modQ < -0.001 then Interval(l.inMax / modQ, l.inMin / modQ)
    else free
  }

  function MotorBounds(l: Limits, modQ: real): Interval {
    if modQ > 0.0 then Interval(l.curMin, l.curMax) else Interval(-l.curMax, -l.curMin)
  }

  /** What the bounds mean: with a positive modulation they bound the q current itself, otherwise
      the current in the opposite direction. */
  lemma MotorBoundsMeaning(l: Limits, modQ: real, iq: real)
    ensures var b := MotorBounds(l, modQ);
            b.lo <= iq <= b.hi <==> l.curMin <= (if modQ > 0.0 then iq else -iq) <= l.curMax
  {
  }

  ghost predicate StraddleZero(l: Limits) {
    l.inMin <= 0.0 <= l.inMax && l.curMin <= 0.0 <= l.curMax
  }

  lemma InputBoundsMeaning(l: Limits, modQ: real, iq: real)
    requires modQ > 0.001 || modQ < -0.001
    requires StraddleZero(l)
    ensures var b := InputBounds(l, modQ, Interval(0.0, 0.0));
            b.lo <= 0.0 <= b.hi && (b.lo <= iq <= b.hi <==> l.inMin <= Scale(modQ, iq) <= l.inMax)
  {
    if modQ > 0.0 {
      QuotientOrder(l.inMin, iq, modQ);
      QuotientOrder(l.inMax, iq, modQ);
      QuotientOrder(l.inMin, 0.0, modQ);
      QuotientOrder(l.inMax, 0.0, modQ);
    } else {
      QuotientOrder(-l.inMin, iq, -modQ);
      QuotientOrder(-l.inMax, iq, -modQ);
      QuotientOrder(-l.inMin, 0.0, -modQ);
      QuotientOrder(-l.inMax, 0.0, -modQ);
      assert Scale(-modQ, iq) == -Scale(modQ, iq);
      assert l.inMin / modQ == (-l.inMin) / (-modQ);
      assert l.inMax / modQ == (-l.inMax) / (-modQ);
    }
  }

  lemma QuotientOrder(n: real, x: real, d: real)
    requires d > 0.0
    ensures n / d <= x <==> n <= Scale(d, x)
    ensures x <= n / d <==> Scale(d, x) <= n
  {
    assert Scale(d, n / d) == n;
    ScaleStrict(d, n / d, x);
    ScaleStrict(d, x, n / d);
  }

  /** The clamps on the current set-points, one after the other. When every interval contains
      zero none of them undoes an earlier one: the q current is the request truncated once to
      the common part of the input-current, motor-current and vector limits, and the current
      vector stays inside the larger motor limit. */
  method ClampSetPoints(idSet: real, iqSet: real, modQ: real, l: Limits, sqrt: real -> real)
    returns (id: real, iq: real)
    requires IsSqrt(sqrt)
    ensures var maxAbs := Abs(MaxAbs(l.curMax, l.curMin));
      && id == Truncate(idSet, -maxAbs, maxAbs)
      && Sq(id) + Sq(iq) <= Sq(maxAbs)
    ensures StraddleZero(l) ==>
      var maxAbs := Abs(MaxAbs(l.curMax, l.curMin));
      var room := sqrt(Sq(maxAbs) - Sq(id));
      var motor := MotorBounds(l, modQ);
      var input := InputBounds(l, modQ, motor);
      && iq == Truncate(iqSet, Max(Max(input.lo, motor.lo), -room), Min(Min(input.hi, motor.hi), room))
      && motor.lo <= iq <= motor.hi && l.curMin <= (if modQ > 0.0 then iq else -iq) <= l.curMax
      && -room <= iq <= room
      && (modQ > 0.001 || modQ < -0.001 ==> l.inMin <= Scale(modQ, iq) <= l.inMax)
  {
    hide Sq, Scale, Abs, MaxAbs;
    id, iq := idSet, iqSet;
    if modQ > 0.001 {
      iq := Truncate(iq, l.inMin / modQ, l.inMax / modQ);
    } else if modQ < -0.001 {
      iq := Truncate(iq, l.inMax / modQ, l.inMin / modQ);
    }
    ghost var iq1 := iq;
    if modQ > 0.0 {
      iq := Truncate(iq, l.curMin, l.curMax);
    } else {
      iq := Truncate(iq, -l.curMax, -l.curMin);
    }
    ghost var iq2 := iq;
    var maxAbs := Abs(MaxAbs(l.curMax, l.curMin));
    MagnitudeIsNonNegative(MaxAbs(l.curMax, l.curMin));
    id := Truncate(id, -maxAbs, maxAbs);
    SquareMonotone(id, maxAbs);
    var room := sqrt(Sq(maxAbs) - Sq(id));
    iq := Truncate(iq, -room, room);
    SquareMonotone(iq, room);
    if StraddleZero(l) {
      Combine(iqSet, iq1, iq2, iq, modQ, l, room);
      MotorBoundsMeaning(l, modQ, iq);
    }
  }

  lemma MagnitudeIsNonNegative(x: real)
    ensures Abs(x) >= 0.0
  {
  }

  lemma Combine(iqSet: real, iq1: real, iq2: real, iq: real, modQ: real, l: Limits, room: real)
    requires StraddleZero(l) && room >= 0.0
    requires var motor := MotorBounds(l, modQ);
             var input := InputBounds(l, modQ, motor);
             && iq1 == (if modQ > 0.001 || modQ < -0.001 then Truncate(iqSet, input.lo, input.hi) else iqSet)
             && iq2 == Truncate(iq1, motor.lo, motor.hi)
             && iq == Truncate(iq2, -room, room)
    ensures var motor := MotorBounds(l, modQ);
            var input := InputBounds(l, modQ, motor);
      && iq == Truncate(iqSet, Max(Max(input.lo, motor.lo), -room), Min(Min(input.hi, motor.hi), room))
      && motor.lo <= iq <= motor.hi
      && (modQ > 0.001 || modQ < -0.001 ==> l.inMin <= Scale(modQ, iq) <= l.inMax)
  {
    hide Scale, InputBounds;
    var motor := MotorBounds(l, modQ);
    var input := InputBounds(l, modQ, motor);
    if modQ > 0.001 || modQ < -0.001 {
      SameInput(l, modQ, motor);
      InputBoundsMeaning(l, modQ, iq);
      TruncateTwice(iqSet, input.lo, input.hi, motor.lo, motor.hi);
    } else {
      NoInput(l, modQ, motor);
    }
  }

  lemma SameInput(l: Limits, modQ: real, free: Interval)
    requires modQ > 0.001 || modQ < -0.001
    ensures InputBounds(l, modQ, free) == InputBounds(l, modQ, Interval(0.0, 0.0))
  {
  }

  lemma NoInput(l: Limits, modQ: real, free: Interval)
    requires -0.001 <= modQ <= 0.001
    ensures InputBounds(l, modQ, free) == free
  {
  }
}
