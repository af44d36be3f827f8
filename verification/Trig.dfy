/** `sin_f32` and `cos_f32` of mc_type.c over an arbitrary table, and the angle normalisation of
    mc_type.h. */
module Trig {
  import opened Numeric

  const TableSize := 512

  /** 1 / 2pi, as the source writes it. */
  const InvTurn := 0.159154943092

  const Pi := 3.14159265358
  const TwoPi := 6.28318530716

  /** A sine table: one turn in 512 steps, end point included. */
  ghost predicate IsTable(t: seq<real>) {
    |t| == TableSize + 1 && forall k :: 0 <= k <= TableSize ==> -1.0 <= t[k] <= 1.0
  }

  /** The half-turn antisymmetry of the sine. */
  ghost predicate IsOdd(t: seq<real>) {
    |t| == TableSize + 1 && t[0] == 0.0 && forall k :: 0 <= k <= TableSize ==> t[k] == -t[TableSize - k]
  }

  /** The turn count of the argument can be converted to `int32_t`. */
  predicate FitsInt32(turns: real) {
    -2147483648.0 < turns < 2147483648.0
  }

  function Lerp(a: real, b: real, x: real): real {
    Scale(1.0 - x, a) + Scale(x, b)
  }

  /** What the code does once it has the argument in turns. The two functions differ only in the
      value whose sign decides the correction of the truncated turn count. */
  function Lookup(t: seq<real>, turns: real, negative: bool): real
    requires |t| == TableSize + 1
    requires negative <==> turns < 0.0
  {
    var n := Trunc(turns);
    var n := if negative then n - 1 else n;
    var turn := turns - n as real;
    var findex := TableSize as real * turn;
    var index := ToU16(Trunc(findex));
    TableIndex(turns, n);
    var (index, findex) := if index >= TableSize then (0, findex - TableSize as real) else (index, findex);
    var fract := findex - index as real;
    Lerp(t[index], t[index + 1], fract)
  }

  function SinF32(t: seq<real>, x: real): real
    requires |t| == TableSize + 1
  {
    Lookup(t, x * InvTurn, x < 0.0)
  }

  function CosF32(t: seq<real>, x: real): real
    requires |t| == TableSize + 1
  {
    var turns := x * InvTurn + 0.25;
    Lookup(t, turns, turns < 0.0)
  }

  /** The corrected turn count leaves a value in [0, 1], and 1 only for whole negative turns. */
  lemma TableIndex(turns: real, n: int)
    requires n == if turns < 0.0 then Trunc(turns) - 1 else Trunc(turns)
    ensures var turn := turns - n as real;
      && 0.0 <= turn <= 1.0
      && (turn < 1.0 ==> n == turns.Floor)
      && (turn == 1.0 ==> turns == turns.Floor as real)
      && 0 <= ToU16(Trunc(512.0 * turn)) == Trunc(512.0 * turn) <= 512
      && (turn < 1.0 ==> Trunc(512.0 * turn) < 512)
  {
    if turns < 0.0 {
      var m := (-turns).Floor;
      assert m as real <= -turns < m as real + 1.0;
    }
  }

  /** The part of the argument after the last whole turn. */
  function Fraction(turns: real): (f: real)
    ensures 0.0 <= f < 1.0
  {
    turns - turns.Floor as real
  }

  /** The piecewise linear curve through the table. */
  function Curve(t: seq<real>, f: real): real
    requires |t| == TableSize + 1 && 0.0 <= f < 1.0
  {
    var k := (512.0 * f).Floor;
    Lerp(t[k], t[k + 1], 512.0 * f - k as real)
  }

  /** The floor fix-up and the index rotation amount to the fractional turn, on every argument. */
  lemma LookupIsCurve(t: seq<real>, turns: real, negative: bool)
    requires |t| == TableSize + 1
    requires negative <==> turns < 0.0
    ensures Lookup(t, turns, negative) == Curve(t, Fraction(turns))
  {
    var n := if negative then Trunc(turns) - 1 else Trunc(turns);
    TableIndex(turns, n);
    hide Lerp;
    hide ToU16;
  }

  /** While the turn count fits, it and its correction stay within `int32_t`. */
  lemma TurnCountFits(turns: real)
    requires FitsInt32(turns)
    ensures var n := if turns < 0.0 then Trunc(turns) - 1 else Trunc(turns);
            -0x8000_0000 <= n < 0x8000_0000 && -0x8000_0000 <= Trunc(turns) < 0x8000_0000
  {
  }

  lemma LerpBetween(a: real, b: real, x: real, m: real)
    requires 0.0 <= x <= 1.0 && -m <= a <= m && -m <= b <= m
    ensures -m <= Lerp(a, b, x) <= m
  {
    ScaleOrder(1.0 - x, a, m);
    ScaleOrder(1.0 - x, -m, a);
    ScaleOrder(x, b, m);
    ScaleOrder(x, -m, b);
    assert Scale(1.0 - x, m) + Scale(x, m) == m;
    assert Scale(1.0 - x, -m) + Scale(x, -m) == -m;
  }

  lemma CurveInRange(t: seq<real>, f: real)
    requires IsTable(t) && 0.0 <= f < 1.0
    ensures -1.0 <= Curve(t, f) <= 1.0
  {
    var k := (512.0 * f).Floor;
    LerpBetween(t[k], t[k + 1], 512.0 * f - k as real, 1.0);
    hide Lerp;
  }

  /** Both functions are the curve at the fractional turn, within [-1, 1], for every argument. */
  lemma SinLaw(t: seq<real>, x: real)
    requires IsTable(t)
    ensures SinF32(t, x) == Curve(t, Fraction(x * InvTurn))
    ensures -1.0 <= SinF32(t, x) <= 1.0
  {
    LookupIsCurve(t, x * InvTurn, x < 0.0);
    CurveInRange(t, Fraction(x * InvTurn));
    hide Curve, Lookup;
  }

  lemma CosLaw(t: seq<real>, x: real)
    requires IsTable(t)
    ensures CosF32(t, x) == Curve(t, Fraction(x * InvTurn + 0.25))
    ensures -1.0 <= CosF32(t, x) <= 1.0
  {
    var turns := x * InvTurn + 0.25;
    LookupIsCurve(t, turns, turns < 0.0);
    CurveInRange(t, Fraction(turns));
    hide Curve, Lookup;
  }

  /** Whole turns do not matter, and the cosine is the sine a quarter turn on, whichever side of
      zero the arguments lie. */
  lemma Periodic(t: seq<real>, x: real, y: real, k: int)
    requires IsTable(t)
    ensures y * InvTurn == x * InvTurn + k as real ==>
              SinF32(t, y) == SinF32(t, x) && CosF32(t, y) == CosF32(t, x)
    ensures y * InvTurn == x * InvTurn + 0.25 ==> SinF32(t, y) == CosF32(t, x)
  {
    hide SinF32, CosF32, Curve;
    SinLaw(t, x);
    SinLaw(t, y);
    CosLaw(t, x);
    CosLaw(t, y);
    assert (x * InvTurn + k as real).Floor == (x * InvTurn).Floor + k;
    assert (x * InvTurn + k as real + 0.25).Floor == (x * InvTurn + 0.25).Floor + k;
  }

  lemma LerpMirror(a: real, b: real, x: real)
    ensures Lerp(-b, -a, 1.0 - x) == -Lerp(a, b, x)
    ensures Lerp(a, b, 0.0) == a && Lerp(a, b, 1.0) == b
  {
  }

  /** On an antisymmetric table the curve is antisymmetric about the half turn. */
  lemma CurveMirror(t: seq<real>, f: real)
    requires IsOdd(t) && 0.0 < f < 1.0
    ensures Curve(t, 1.0 - f) == -Curve(t, f)
  {
    hide Lerp;
    var k := (512.0 * f).Floor;
    var x := 512.0 * f - k as real;
    var j := (512.0 * (1.0 - f)).Floor;
    LerpMirror(t[k], t[k + 1], x);
    if x == 0.0 {
      assert j == 512 - k;
      LerpMirror(t[j], t[j + 1], 0.0);
    } else {
      assert j == 511 - k;
    }
  }

  /** The downward correction for negative arguments makes the sine odd. */
  lemma SinIsOdd(t: seq<real>, x: real)
    requires IsTable(t) && IsOdd(t)
    ensures SinF32(t, -x) == -SinF32(t, x)
  {
    SinLaw(t, x);
    SinLaw(t, -x);
    OddCurve(t, x * InvTurn);
    hide SinF32, Curve;
    assert (-x) * InvTurn == -(x * InvTurn);
  }

  lemma OddCurve(t: seq<real>, u: real)
    requires IsOdd(t)
    ensures Curve(t, Fraction(-u)) == -Curve(t, Fraction(u))
  {
    var f := Fraction(u);
    if f == 0.0 {
      assert (-u).Floor == -(u.Floor);
      LerpMirror(t[0], t[1], 0.0);
    } else {
      assert (-u).Floor == -(u.Floor) - 1;
      CurveMirror(t, f);
    }
    hide Lerp;
  }

  // ----- Angle normalisation ------------------------------------------------------------

  /** The number of whole turns between an angle and the interval from -pi to pi. */
  function WholeTurns(a: real): int {
    ((a + Pi) / TwoPi).Floor
  }

  function Normal(a: real): real {
    a - WholeTurns(a) as real * TwoPi
  }

  lemma NormalStep(a: real)
    ensures Normal(a + TwoPi) == Normal(a)
    ensures -Pi <= a < Pi ==> Normal(a) == a && WholeTurns(a) == 0
    ensures -Pi <= Normal(a) < Pi
    ensures WholeTurns(a + TwoPi) == WholeTurns(a) + 1
    ensures a < -Pi <==> WholeTurns(a) < 0
    ensures a >= Pi <==> WholeTurns(a) > 0
  {
    assert (a + TwoPi + Pi) / TwoPi == (a + Pi) / TwoPi + 1.0;
    var q := (a + Pi) / TwoPi;
    assert q * TwoPi == a + Pi;
    assert WholeTurns(a) as real <= q < WholeTurns(a) as real + 1.0;
  }

  /** `utils_norm_angle_rad`. */
  method NormAngleRad(angle: real) returns (a: real)
    ensures -Pi <= a < Pi
    ensures a == Normal(angle)
  {
    hide Normal, WholeTurns;
    a := angle;
    while a < -Pi
      invariant Normal(a) == Normal(angle)
      decreases -WholeTurns(a)
    {
      NormalStep(a);
      a := a + TwoPi;
    }
    while a >= Pi
      invariant Normal(a) == Normal(angle)
      invariant a >= -Pi
      decreases WholeTurns(a)
    {
      NormalStep(a);
      a := a - TwoPi;
      NormalStep(a);
    }
    NormalStep(a);
  }

  /** The drive angle is kept from 0 to 2pi instead. */
  function Turns(a: real): int {
    (a / TwoPi).Floor
  }

  function Positive(a: real): real {
    a - Turns(a) as real * TwoPi
  }

  lemma PositiveStep(a: real)
    ensures Positive(a + TwoPi) == Positive(a) && Turns(a + TwoPi) == Turns(a) + 1
    ensures 0.0 <= Positive(a) < TwoPi
    ensures 0.0 <= a < TwoPi ==> Positive(a) == a
    ensures a < 0.0 <==> Turns(a) < 0
    ensures a >= TwoPi <==> Turns(a) > 0
  {
    var q := a / TwoPi;
    assert q * TwoPi == a;
    assert (a + TwoPi) / TwoPi == q + 1.0;
    assert Turns(a) as real <= q < Turns(a) as real + 1.0;
  }

  /** The pair of wrap loops after every open-loop angle increment. */
  method WrapAngle(angle: real) returns (a: real)
    ensures 0.0 <= a < TwoPi
    ensures a == Positive(angle)
  {
    hide Positive, Turns;
    a := angle;
    while a >= TwoPi
      invariant Positive(a) == Positive(angle)
      decreases Turns(a)
    {
      PositiveStep(a);
      a := a - TwoPi;
      PositiveStep(a);
    }
    while a < 0.0
      invariant Positive(a) == Positive(angle)
      invariant a < TwoPi
      decreases -Turns(a)
    {
      PositiveStep(a);
      a := a + TwoPi;
    }
    PositiveStep(a);
  }

  lemma {:induction false} NormalShift(a: real, k: int)
    ensures Normal(a + k as real * TwoPi) == Normal(a)
    decreases if k < 0 then -k else k
  {
    hide Normal, WholeTurns;
    if k > 0 {
      NormalShift(a, k - 1);
      NormalStep(a + (k - 1) as real * TwoPi);
    } else if k < 0 {
      NormalShift(a, k + 1);
      NormalStep(a + k as real * TwoPi);
    }
  }

  /** Measured against its own normal value, every angle is zero. */
  lemma NormalDifference(x: real)
    ensures Normal(x - Normal(x)) == 0.0
  {
    NormalShift(0.0, WholeTurns(x));
    NormalStep(0.0);
    assert x - Normal(x) == 0.0 + WholeTurns(x) as real * TwoPi;
    hide WholeTurns;
  }

  // ----- Anchors ------------------------------------------------------------------------

  /** The curve passes through the table: its `k`-th node is the entry at `k` 512ths of a turn. */
  lemma CurveAtNodes(t: seq<real>, k: nat)
    requires |t| == TableSize + 1 && k < TableSize
    ensures Curve(t, k as real / 512.0) == t[k]
  {
    LerpMirror(t[k], t[k + 1], 0.0);
    assert (512.0 * (k as real / 512.0)).Floor == k;
    hide Lerp;
  }

  /** Between two nodes it is the straight line through them. */
  lemma CurveBetween(t: seq<real>, k: nat, x: real)
    requires |t| == TableSize + 1 && k < TableSize && 0.0 <= x < 1.0
    ensures Curve(t, (k as real + x) / 512.0) == t[k] + x * (t[k + 1] - t[k])
  {
    var f := (k as real + x) / 512.0;
    assert 512.0 * f == k as real + x;
    assert (512.0 * f).Floor == k;
    assert Lerp(t[k], t[k + 1], x) == (1.0 - x) * t[k] + x * t[k + 1];
  }

  /** The factor that turns radians into turns is the inverse of a whole turn to ten digits. */
  lemma TurnFactor()
    ensures TwoPi == 2.0 * Pi && 3.1415926535 < Pi < 3.1415926536
    ensures -0.00000000001 < TwoPi * InvTurn - 1.0 < 0.00000000001
  {
  }

  /** An angle on the turn is a fraction of a turn; a quarter turn is a quarter of the table. */
  lemma SinAtNode(t: seq<real>, k: nat, x: real)
    requires IsTable(t) && k < TableSize && x * InvTurn == k as real / 512.0
    ensures SinF32(t, x) == t[k] && (k + 128 < TableSize ==> CosF32(t, x) == t[k + 128])
  {
    hide Curve, SinF32, CosF32;
    SinLaw(t, x);
    CosLaw(t, x);
    CurveAtNodes(t, k);
    if k + 128 < TableSize {
      CurveAtNodes(t, k + 128);
      assert (k + 128) as real / 512.0 == k as real / 512.0 + 0.25;
    }
  }
}
