/** Hall-table detection: `mcpwm_get_hall_detect_result`. */
module HallDetect {

  /** `step` is what a row of counts stands for: the first of the columns 1 to 6 that holds the
      row's maximum, provided that exceeds 15, and -1 otherwise. */
  ghost predicate IsStep(row: seq<int>, step: int)
    requires |row| == 7
  {
    if step == -1 then forall j :: 1 <= j < 7 ==> row[j] <= 15 else
      && 1 <= step < 7 && row[step] > 15
      && forall j :: 1 <= j < 7 ==> row[j] <= row[step] && (j < step ==> row[j] < row[step])
  }

  /** A row stands for one step only. */
  lemma IsStepUnique(row: seq<int>, s: int, t: int)
    requires |row| == 7 && IsStep(row, s) && IsStep(row, t)
    ensures s == t
  {
    if s != -1 && t != -1 {
      assert row[s] == row[t];
    }
  }

  ghost function Row(counts: array2<int>, i: nat): seq<int>
    reads counts
    requires counts.Length0 == 8 && counts.Length1 == 7 && i < 8
  {
    seq(7, j requires 0 <= j < 7 reads counts => counts[i, j])
  }

  /** `a` and `b` are the two invalid hall codes, and the only ones. */
  ghost predicate InvalidPair(t: seq<int>, a: int, b: int) {
    0 <= a < b < |t| && forall i :: 0 <= i < |t| ==> (t[i] == -1 <==> i == a || i == b)
  }

  /** Exactly two hall codes are invalid, and the other six map one to one onto the steps. */
  ghost predicate IsHallTable(t: seq<int>) {
    && |t| == 8
    && (exists a, b :: InvalidPair(t, a, b))
    && (forall i, j :: 0 <= i < j < 8 && t[i] == t[j] ==> t[i] == -1)
    && (forall s :: 1 <= s <= 6 ==> s in t)
    && (forall i :: 0 <= i < 8 ==> t[i] == -1 || 1 <= t[i] <= 6)
  }

  function Invalid(t: seq<int>): nat {
    if t == [] then 0 else Invalid(t[..|t| - 1]) + if t[|t| - 1] == -1 then 1 else 0
  }

  function Values(t: seq<int>): set<int> {
    set x | x in t && x != -1
  }

  ghost predicate NoRepeat(t: seq<int>) {
    forall i, j :: 0 <= i < j < |t| && t[i] == t[j] ==> t[i] == -1
  }

  lemma ValuesSnoc(t: seq<int>, x: int)
    ensures Values(t + [x]) == if x == -1 then Values(t) else Values(t) + {x}
  {
  }

  /** Pigeonhole: every entry is invalid or adds at most one value, and none is lost exactly
      when no value repeats. */
  lemma {:induction false} Pigeonhole(t: seq<int>)
    ensures |Values(t)| + Invalid(t) <= |t|
    ensures |Values(t)| + Invalid(t) == |t| <==> NoRepeat(t)
  {
    if t == [] {
      assert Values(t) == {};
    } else {
      var before, x := t[..|t| - 1], t[|t| - 1];
      assert t == before + [x];
      Pigeonhole(before);
      ValuesSnoc(before, x);
      NoRepeatSnoc(before, x);
    }
  }

  lemma NoRepeatSnoc(t: seq<int>, x: int)
    ensures NoRepeat(t + [x]) <==> NoRepeat(t) && x !in Values(t)
  {
    var u := t + [x];
    if x in Values(t) {
      var i :| 0 <= i < |t| && t[i] == x;
      assert u[i] == u[|t|] == x;
    }
    if NoRepeat(u) {
      forall i, j | 0 <= i < j < |t| && t[i] == t[j]
        ensures t[i] == -1
      {
        assert u[i] == u[j];
      }
    }
  }

  lemma SubsetSize(a: set<int>, b: set<int>)
    requires a <= b
    ensures |a| <= |b| && (|a| == |b| <==> a == b)
  {
    assert b == a + (b - a);
  }

  /** Where the invalid entries are, when there are two of them. */
  lemma TwoInvalid(t: seq<int>)
    ensures Invalid(t) == 2 <==> exists a, b :: InvalidPair(t, a, b)
  {
    InvalidIsSize(t);
    var s := InvalidAt(t);
    if |s| == 2 {
      var x :| x in s;
      SubsetSize({x}, s);
      var y :| y in s && y != x;
      assert |{x, y}| == 2;
      SubsetSize({x, y}, s);
      assert forall i :: 0 <= i < |t| ==> (t[i] == -1 <==> i in s);
      assert InvalidPair(t, if x < y then x else y, if x < y then y else x);
    }
    if a, b :| InvalidPair(t, a, b) {
      assert s == {a, b};
    }
  }

  function InvalidAt(t: seq<int>): set<int> {
    set i | 0 <= i < |t| && t[i] == -1
  }

  lemma {:induction false} InvalidIsSize(t: seq<int>)
    ensures Invalid(t) == |InvalidAt(t)|
  {
    if t == [] {
      assert InvalidAt(t) == {};
    } else {
      var last := |t| - 1;
      InvalidIsSize(t[..last]);
      assert InvalidAt(t) == InvalidAt(t[..last]) + if t[last] == -1 then {last} else {};
    }
  }

  /** The two counters of the code decide the bijection. */
  lemma CountsDecide(t: seq<int>)
    requires |t| == 8
    requires forall i :: 0 <= i < 8 ==> t[i] == -1 || 1 <= t[i] <= 6
    ensures Invalid(t) == 2 && |Values(t)| == 6 <==> IsHallTable(t)
  {
    hide Invalid, InvalidPair, Values;
    Pigeonhole(t);
    TwoInvalid(t);
    AllSteps(t);
    SubsetSize(Values(t), {1, 2, 3, 4, 5, 6});
  }

  lemma AllSteps(t: seq<int>)
    requires forall i :: 0 <= i < |t| ==> t[i] == -1 || 1 <= t[i] <= 6
    ensures Values(t) <= {1, 2, 3, 4, 5, 6}
    ensures Values(t) == {1, 2, 3, 4, 5, 6} <==> forall s :: 1 <= s <= 6 ==> s in t
  {
    if Values(t) == {1, 2, 3, 4, 5, 6} {
      assert forall s :: 1 <= s <= 6 ==> s in Values(t);
    }
  }

  method ReadRow(counts: array2<int>, i: nat) returns (res: int)
    requires counts.Length0 == 8 && counts.Length1 == 7 && i < 8
    ensures IsStep(Row(counts, i), res)
  {
    var samples := 0;
    res := -1;
    for j := 1 to 7
      invariant samples >= 0 && forall k :: 1 <= k < j ==> counts[i, k] <= samples
      invariant res == -1 <==> samples <= 15
      invariant res != -1 ==> 1 <= res < j && counts[i, res] == samples
      invariant res != -1 ==> forall k :: 1 <= k < res ==> counts[i, k] < samples
    {
      if counts[i, j] > samples {
        samples := counts[i, j];
        if samples > 15 {
          res := j;
        }
      }
    }
  }

  /** The result is 0 exactly when the detected table is a bijection; the table itself is the
      row-by-row reading of the counts. */
  method DetectResult(hallMode: bool, counts: array2<int>, table: array<int>) returns (code: int)
    requires counts.Length0 == 8 && counts.Length1 == 7 && table.Length == 8
    modifies table
    ensures !hallMode ==> code == -3 && table[..] == old(table[..])
    ensures hallMode ==> forall i :: 0 <= i < 8 ==> IsStep(Row(counts, i), table[i])
    ensures hallMode ==> code == if IsHallTable(table[..]) then 0 else -1
  {
    if !hallMode {
      return -3;
    }
    for i := 0 to 8
      invariant forall k :: 0 <= k < i ==> IsStep(Row(counts, k), table[k])
    {
      var res := ReadRow(counts, i);
      table[i] := res;
    }
    code := CountTable(table[..]);
  }

  method CountTable(table: seq<int>) returns (code: int)
    requires |table| == 8
    requires forall i :: 0 <= i < 8 ==> table[i] == -1 || 1 <= table[i] <= 6
    ensures code == if IsHallTable(table) then 0 else -1
  {
    hide IsHallTable, Values, Invalid;
    var invalid := 0;
    var nums := new bool[7](_ => false);
    var tot := 0;
    CountsStart();
    for i := 0 to 8
      invariant invalid == Invalid(table[..i])
      invariant tot == |Values(table[..i])|
      invariant forall s :: 0 <= s < 7 ==> (nums[s] <==> s in Values(table[..i]))
    {
      CountsSnoc(table, i);
      assert table[i] in Values(table[..i]) ==> Values(table[..i]) + {table[i]} == Values(table[..i]);
      if table[i] == -1 {
        invalid := invalid + 1;
      } else {
        if !nums[table[i]] {
          nums[table[i]] := true;
          tot := tot + 1;
        }
      }
    }
    assert table[..8] == table;
    CountsDecide(table);
    code := if invalid == 2 && tot == 6 then 0 else -1;
  }

  lemma CountsStart()
    ensures Invalid([]) == 0 && Values([]) == {}
  {
  }

  lemma CountsSnoc(t: seq<int>, i: nat)
    requires i < |t|
    ensures Invalid(t[..i + 1]) == Invalid(t[..i]) + if t[i] == -1 then 1 else 0
    ensures Values(t[..i + 1]) == if t[i] == -1 then Values(t[..i]) else Values(t[..i]) + {t[i]}
  {
    assert t[..i + 1] == t[..i] + [t[i]];
    ValuesSnoc(t[..i], t[i]);
  }
}
