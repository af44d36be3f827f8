/** Debounced fault bits: `Prot_MotorOverCurrent` and `Prot_MonitorVbus`. */
module Protection {
  import opened Numeric

  // ----- The fault word -----------------------------------------------------------------

  /** The bits of `u32FaultCode`; the word itself is the set of bits that are up. */
  datatype Fault = AdOffset | OcPeak | OcRms | OcHw | VdcOv | VdcUv | VdcAbnorm | MotorOp | MotorOt | IpmOt
                 | LockRotor | LackPhase | Comm | SwWd | HwWd | UndefInt | DmaFail | SysClk | IpdErr
                 | Converge | Align

  type FaultWord = set<Fault>

  function WithBit(w: FaultWord, f: Fault, up: bool): FaultWord {
    if up then w + {f} else w - {f}
  }

  // ----- Over-current -------------------------------------------------------------------

  /** Counter, trip time and clear time of `ProtectOC_t`. */
  datatype Oc = Oc(cnt: int, threshold: real, trip: int, clear: int)

  datatype Currents = Currents(u: real, v: real, w: real)

  /** Some phase is above the threshold. */
  predicate Over(i: Currents, threshold: real) {
    i.u - threshold > 0.0 || i.v - threshold > 0.0 || i.w - threshold > 0.0
  }

  /** That is, the largest of the three currents is. */
  lemma OverLaw(i: Currents, threshold: real)
    ensures Over(i, threshold) <==> Max(i.u, Max(i.v, i.w)) > threshold
  {
  }

  /** One sample, given the bit before it: the counter and the bit after it. */
  function OcStep(o: Oc, up: bool, over: bool): (Oc, bool) {
    if !up then
      if over then
        if o.cnt + 1 >= o.trip then (o.(cnt := o.clear), true) else (o.(cnt := o.cnt + 1), false)
      else (o.(cnt := 0), false)
    else
      if !over then (o.(cnt := o.cnt - 1), !(o.cnt - 1 <= 0)) else (o.(cnt := o.clear), true)
  }

  class ProtectOC {
    var cnt: int
    var threshold: real
    var trip: int
    var clear: int

    function Value(): Oc
      reads this
    {
      Oc(cnt, threshold, trip, clear)
    }

    constructor (o: Oc)
      ensures Value() == o
    {
      cnt, threshold, trip, clear := o.cnt, o.threshold, o.trip, o.clear;
    }

    method MotorOverCurrent(i: Currents, fault: FaultWord) returns (fault': FaultWord)
      modifies this
      ensures var (o, up) := OcStep(old(Value()), OcPeak in fault, Over(i, old(threshold)));
              Value() == o && fault' == WithBit(fault, OcPeak, up)
    {
      fault' := fault;
      var du, dv, dw := i.u - threshold, i.v - threshold, i.w - threshold;
      if OcPeak !in fault {
        if du > 0.0 || dv > 0.0 || dw > 0.0 {
          cnt := cnt + 1;
          if cnt >= trip {
            fault' := fault + {OcPeak};
            cnt := clear;
          }
        } else {
          cnt := 0;
        }
      } else {
        if du <= 0.0 && dv <= 0.0 && dw <= 0.0 {
          cnt := cnt - 1;
          if cnt <= 0 {
            fault' := fault - {OcPeak};
          }
        } else {
          cnt := clear;
        }
      }
    }
  }

  /** Counter and bit after a history of samples, from a cleared start. */
  function OcRun(o: Oc, history: seq<bool>): (Oc, bool)
    decreases |history|
  {
    if history == [] then (o.(cnt := 0), false) else
      var last := |history| - 1;
      var (q, up) := OcRun(o, history[..last]);
      OcStep(q, up, history[last])
  }

  /** The `n` samples that end at position `end` all have the value `x`. */
  predicate RunOf(history: seq<bool>, end: int, n: int, x: bool) {
    n <= end <= |history| && forall k :: end - n <= k < end ==> 0 <= k && history[k] == x
  }

  /** Length of the constant stretch of value `x` at the end of the history. */
  function Trailing(history: seq<bool>, x: bool): nat
    decreases |history|
  {
    if history == [] || history[|history| - 1] != x then 0 else 1 + Trailing(history[..|history| - 1], x)
  }

  lemma {:induction false} TrailingIsRun(history: seq<bool>, x: bool, n: nat)
    ensures RunOf(history, |history|, n, x) <==> n <= Trailing(history, x)
    decreases |history|
  {
    if history != [] && n > 0 {
      var last := |history| - 1;
      TrailingIsRun(history[..last], x, n - 1);
      if history[last] == x {
        assert RunOf(history, |history|, n, x) <==> RunOf(history[..last], last, n - 1, x);
      } else {
        assert !RunOf(history, |history|, n, x);
      }
    }
  }

  /** The declarative meaning of the bit: at some point there were `trip` over-threshold
      samples in a row, and since then never `clear` under-threshold samples in a row. */
  ghost predicate Tripped(history: seq<bool>, trip: int, clear: int) {
    exists i :: RunOf(history, i, trip, true) && !Released(history, i, clear)
  }

  ghost predicate Released(history: seq<bool>, since: int, clear: int) {
    exists j :: since < j && RunOf(history, j, clear, false)
  }

  lemma RunOfPrefix(history: seq<bool>, x: bool, end: int, n: int, y: bool)
    requires end <= |history|
    ensures RunOf(history + [x], end, n, y) <==> RunOf(history, end, n, y)
  {
    var h := history + [x];
    assert forall k :: 0 <= k < |history| ==> h[k] == history[k];
  }

  /** The last sample only matters through the run it ends. */
  lemma TrippedStep(history: seq<bool>, x: bool, trip: int, clear: int)
    requires trip >= 1 && clear >= 1
    ensures var h := history + [x];
            Tripped(h, trip, clear) <==>
              RunOf(h, |h|, trip, true) || (Tripped(history, trip, clear) && !RunOf(h, |h|, clear, false))
  {
    var h := history + [x];
    if RunOf(h, |h|, trip, true) {
      assert !Released(h, |h|, clear);
    }
    if Tripped(h, trip, clear) && !RunOf(h, |h|, trip, true) {
      var i :| RunOf(h, i, trip, true) && !Released(h, i, clear);
      RunOfPrefix(history, x, i, trip, true);
      ReleasedPrefix(history, x, i, clear);
    }
    if Tripped(history, trip, clear) && !RunOf(h, |h|, clear, false) {
      var i :| RunOf(history, i, trip, true) && !Released(history, i, clear);
      RunOfPrefix(history, x, i, trip, true);
      ReleasedPrefix(history, x, i, clear);
      assert RunOf(h, i, trip, true) && !Released(h, i, clear);
    }
  }

  lemma ReleasedPrefix(history: seq<bool>, x: bool, since: int, clear: int)
    requires since <= |history|
    ensures var h := history + [x];
            Released(h, since, clear) <==> Released(history, since, clear) || RunOf(h, |h|, clear, false)
  {
    var h := history + [x];
    forall j | j <= |history|
      ensures RunOf(h, j, clear, false) <==> RunOf(history, j, clear, false)
    {
      RunOfPrefix(history, x, j, clear, false);
    }
  }

  /** After any history the over-current bit is its declarative meaning, and the counter is the
      current run toward the next change. A time below one acts like one, except that a
      non-positive clear time also needs `trip <= clear`. */
  lemma {:induction false} OcBitMeaning(o: Oc, history: seq<bool>)
    requires o.clear >= 1 || o.trip <= o.clear
    ensures var (q, up) := OcRun(o, history);
      && q == o.(cnt := q.cnt)
      && (up <==> Tripped(history, AtLeastOne(o.trip), AtLeastOne(o.clear)))
      && (!up ==> Trailing(history, true) < AtLeastOne(o.trip))
      && (up ==> Trailing(history, false) < AtLeastOne(o.clear))
      && (o.clear >= 1 ==> q.cnt == if up then o.clear - Trailing(history, false) else Trailing(history, true))
      && q.cnt >= o.clear - AtLeastOne(o.clear)
    decreases |history|
  {
    if history == [] {
      assert !Tripped(history, AtLeastOne(o.trip), AtLeastOne(o.clear));
    } else {
      var last := |history| - 1;
      var before, x := history[..last], history[last];
      assert history == before + [x];
      OcBitMeaning(o, before);
      TrippedStep(before, x, AtLeastOne(o.trip), AtLeastOne(o.clear));
      TrailingIsRun(history, true, AtLeastOne(o.trip));
      TrailingIsRun(history, false, AtLeastOne(o.clear));
      hide Tripped, RunOf;
    }
  }

  /** With positive times the bit rises exactly at the `trip`-th over-threshold sample in a row
      and falls exactly at the `clear`-th under-threshold sample in a row. */
  lemma OcEdges(o: Oc, history: seq<bool>, over: bool)
    requires o.trip >= 1 && o.clear >= 1
    ensures var up, up' := OcRun(o, history).1, OcRun(o, history + [over]).1;
      && (!up && up' <==> !up && Trailing(history + [over], true) == o.trip)
      && (up && !up' <==> up && Trailing(history + [over], false) == o.clear)
  {
    var h := history + [over];
    assert h[..|history|] == history;
    OcBitMeaning(o, history);
    OcBitMeaning(o, h);
    hide Tripped;
  }

  function Overs(n: nat): (h: seq<bool>)
    ensures |h| == n && forall k :: 0 <= k < n ==> h[k]
  {
    if n == 0 then [] else Overs(n - 1) + [true]
  }

  /** Over-threshold samples short of the trip time only count up. */
  lemma {:induction false} OcRunOvers(o: Oc, history: seq<bool>, n: nat)
    requires var (q, up) := OcRun(o, history); !up && q.trip == o.trip && (n == 0 || q.cnt + n < o.trip)
    ensures var (q, up) := OcRun(o, history); OcRun(o, history + Overs(n)) == (q.(cnt := q.cnt + n), false)
    decreases n
  {
    hide OcRun, OcStep;
    if n == 0 {
      assert history + Overs(0) == history;
    } else {
      OcRunOvers(o, history, n - 1);
      var q := OcRun(o, history).0;
      OcCounts(q.(cnt := q.cnt + n - 1));
      OcRunLast(o, history + Overs(n - 1), true);
      assert history + Overs(n) == history + Overs(n - 1) + [true];
    }
  }

  lemma OcCounts(q: Oc)
    requires q.cnt + 1 < q.trip
    ensures OcStep(q, false, true) == (q.(cnt := q.cnt + 1), false)
  {
  }

  lemma OcTrips(q: Oc)
    requires q.cnt + 1 >= q.trip
    ensures OcStep(q, false, true) == (q.(cnt := q.clear), true)
  {
  }

  lemma OcReleases(q: Oc)
    requires q.cnt <= 1
    ensures OcStep(q, true, false) == (q.(cnt := q.cnt - 1), false)
  {
  }

  lemma OcRunLast(o: Oc, history: seq<bool>, x: bool)
    ensures OcRun(o, history + [x]) == OcStep(OcRun(o, history).0, OcRun(o, history).1, x)
  {
    var h := history + [x];
    assert h[..|history|] == history;
  }

  /** A second run of over-threshold samples right after a release, with a non-positive clear
      time: the counter restarts below zero and the run goes unnoticed. */
  function Unnoticed(n: nat): seq<bool>
    requires n >= 1
  {
    Overs(n - 1) + [true] + [false] + Overs(n - 1) + [true]
  }

  lemma UnnoticedIsTripped(n: nat, clear: int)
    requires n >= 1
    ensures Tripped(Unnoticed(n), n, clear)
  {
    var h := Unnoticed(n);
    assert h == (Overs(n - 1) + [true] + [false]) + (Overs(n - 1) + [true]);
    assert RunOf(h, |h|, n, true);
    assert !Released(h, |h|, clear);
  }

  lemma UnnoticedRun(o: Oc)
    requires o.clear < 1 && o.trip > o.clear
    ensures !OcRun(o, Unnoticed(AtLeastOne(o.trip))).1
  {
    hide Overs, OcStep;
    var n := AtLeastOne(o.trip);
    var h1 := Overs(n - 1);
    OcRunOvers(o, [], n - 1);
    assert [] + h1 == h1;
    OcTrips(o.(cnt := n - 1));
    OcReleases(o.(cnt := o.clear));
    OcCounts(o.(cnt := o.clear + n - 2));
    var h2 := h1 + [true];
    OcRunLast(o, h1, true);
    var h3 := h2 + [false];
    OcRunLast(o, h2, false);
    assert OcRun(o, h3) == (o.(cnt := o.clear - 1), false);
    OcRunOvers(o, h3, n - 1);
    OcRunLast(o, h3 + h1, true);
  }

  /** The side condition is exact. */
  lemma OcBitMeaningIff(o: Oc)
    ensures o.clear >= 1 || o.trip <= o.clear <==>
            forall h :: OcRun(o, h).1 <==> Tripped(h, AtLeastOne(o.trip), AtLeastOne(o.clear))
  {
    hide OcRun, Tripped, AtLeastOne;
    if o.clear >= 1 || o.trip <= o.clear {
      forall h
        ensures OcRun(o, h).1 <==> Tripped(h, AtLeastOne(o.trip), AtLeastOne(o.clear))
      {
        OcBitMeaning(o, h);
      }
    } else {
      AtLeastOneIs(o.trip);
      UnnoticedRun(o);
      UnnoticedIsTripped(AtLeastOne(o.trip), AtLeastOne(o.clear));
    }
  }

  lemma AtLeastOneIs(n: int)
    ensures AtLeastOne(n) >= 1
  {
  }

  // ----- Bus voltage --------------------------------------------------------------------

  /** One debounced bit: an up-down counter that must fill before the bit is set and drain
      before it is cleared. */
  datatype Channel = Channel(cnt: int, time: int)

  function ChannelStep(c: Channel, up: bool, bad: bool): (Channel, bool) {
    if bad then
      if c.cnt < c.time then (c.(cnt := c.cnt + 1), up) else (c, true)
    else
      if c.cnt > 0 then (c.(cnt := c.cnt - 1), up) else (c, false)
  }

  datatype Vbus = Vbus(ovp: Channel, uvp: Channel, abnormal: Channel,
                       ovpThreshold: real, uvpThreshold: real, abnormalHigh: real, abnormalLow: real)

  /** The counters of static storage. */
  function Unfilled(v: Vbus): Vbus {
    v.(ovp := v.ovp.(cnt := 0), uvp := v.uvp.(cnt := 0), abnormal := v.abnormal.(cnt := 0))
  }

  /** One reading of the bus voltage. Each bit follows its own counter and nothing else. */
  function VbusStep(v: Vbus, w: FaultWord, volts: real): (Vbus, FaultWord) {
    var (ovp, ov) := ChannelStep(v.ovp, VdcOv in w, volts >= v.ovpThreshold);
    var (uvp, uv) := ChannelStep(v.uvp, VdcUv in w, volts <= v.uvpThreshold);
    var (abnormal, ab) := ChannelStep(v.abnormal, VdcAbnorm in w, volts >= v.abnormalHigh || volts <= v.abnormalLow);
    (v.(ovp := ovp, uvp := uvp, abnormal := abnormal),
     WithBit(WithBit(WithBit(w, VdcOv, ov), VdcUv, uv), VdcAbnorm, ab))
  }

  class ProtectVbus {
    var abnormalCnt: int
    var ovpCnt: int
    var uvpCnt: int
    var abnormalTime: int
    var ovpTime: int
    var uvpTime: int
    var ovpThreshold: real
    var uvpThreshold: real
    var abnormalHigh: real
    var abnormalLow: real

    function Value(): Vbus
      reads this
    {
      Vbus(Channel(ovpCnt, ovpTime), Channel(uvpCnt, uvpTime), Channel(abnormalCnt, abnormalTime),
           ovpThreshold, uvpThreshold, abnormalHigh, abnormalLow)
    }

    constructor (v: Vbus)
      ensures Value() == v
    {
      ovpCnt, ovpTime, uvpCnt, uvpTime := v.ovp.cnt, v.ovp.time, v.uvp.cnt, v.uvp.time;
      abnormalCnt, abnormalTime := v.abnormal.cnt, v.abnormal.time;
      ovpThreshold, uvpThreshold, abnormalHigh, abnormalLow :=
        v.ovpThreshold, v.uvpThreshold, v.abnormalHigh, v.abnormalLow;
    }

    method OverVoltage(volts: real, fault: FaultWord) returns (fault': FaultWord)
      modifies this
      ensures var (c, up) := ChannelStep(old(Value()).ovp, VdcOv in fault, volts >= old(ovpThreshold));
              Value() == old(Value()).(ovp := c) && fault' == WithBit(fault, VdcOv, up)
    {
      fault' := fault;
      if volts >= ovpThreshold {
        if ovpCnt < ovpTime { ovpCnt := ovpCnt + 1; } else { fault' := fault' + {VdcOv}; }
      } else {
        if ovpCnt > 0 { ovpCnt := ovpCnt - 1; } else { fault' := fault' - {VdcOv}; }
      }
    }

    method UnderVoltage(volts: real, fault: FaultWord) returns (fault': FaultWord)
      modifies this
      ensures var (c, up) := ChannelStep(old(Value()).uvp, VdcUv in fault, volts <= old(uvpThreshold));
              Value() == old(Value()).(uvp := c) && fault' == WithBit(fault, VdcUv, up)
    {
      fault' := fault;
      if volts <= uvpThreshold {
        if uvpCnt < uvpTime { uvpCnt := uvpCnt + 1; } else { fault' := fault' + {VdcUv}; }
      } else {
        if uvpCnt > 0 { uvpCnt := uvpCnt - 1; } else { fault' := fault' - {VdcUv}; }
      }
    }

    method AbnormalVoltage(volts: real, fault: FaultWord) returns (fault': FaultWord)
      modifies this
      ensures var bad := volts >= old(abnormalHigh) || volts <= old(abnormalLow);
              var (c, up) := ChannelStep(old(Value()).abnormal, VdcAbnorm in fault, bad);
              Value() == old(Value()).(abnormal := c) && fault' == WithBit(fault, VdcAbnorm, up)
    {
      fault' := fault;
      if volts >= abnormalHigh || volts <= abnormalLow {
        if abnormalCnt < abnormalTime { abnormalCnt := abnormalCnt + 1; } else { fault' := fault' + {VdcAbnorm}; }
      } else {
        if abnormalCnt > 0 { abnormalCnt := abnormalCnt - 1; } else { fault' := fault' - {VdcAbnorm}; }
      }
    }

    method MonitorVbus(volts: real, fault: FaultWord) returns (fault': FaultWord)
      modifies this
      ensures (Value(), fault') == VbusStep(old(Value()), fault, volts)
    {
      hide ChannelStep;
      fault' := OverVoltage(volts, fault);
      fault' := UnderVoltage(volts, fault');
      fault' := AbnormalVoltage(volts, fault');
    }
  }

  function ChannelRun(c: Channel, up: bool, history: seq<bool>): (Channel, bool)
    decreases |history|
  {
    if history == [] then (c, up) else
      var last := |history| - 1;
      var (d, u) := ChannelRun(c, up, history[..last]);
      ChannelStep(d, u, history[last])
  }

  function VbusRun(v: Vbus, w: FaultWord, volts: seq<real>): (Vbus, FaultWord)
    decreases |volts|
  {
    if volts == [] then (v, w) else
      var last := |volts| - 1;
      var (u, x) := VbusRun(v, w, volts[..last]);
      VbusStep(u, x, volts[last])
  }

  function Readings(volts: seq<real>, bad: real -> bool): seq<bool> {
    seq(|volts|, i requires 0 <= i < |volts| => bad(volts[i]))
  }

  lemma ReadingsSnoc(volts: seq<real>, bad: real -> bool)
    requires volts != []
    ensures var last := |volts| - 1;
            var h := Readings(volts, bad);
            |h| == |volts| && h[..last] == Readings(volts[..last], bad) && h[last] == bad(volts[last])
  {
  }

  lemma StepBits(v: Vbus, w: FaultWord, volts: real)
    ensures var (u, x) := VbusStep(v, w, volts);
      && u == v.(ovp := u.ovp, uvp := u.uvp, abnormal := u.abnormal)
      && (u.ovp, VdcOv in x) == ChannelStep(v.ovp, VdcOv in w, volts >= v.ovpThreshold)
      && (u.uvp, VdcUv in x) == ChannelStep(v.uvp, VdcUv in w, volts <= v.uvpThreshold)
      && (u.abnormal, VdcAbnorm in x) ==
           ChannelStep(v.abnormal, VdcAbnorm in w, volts >= v.abnormalHigh || volts <= v.abnormalLow)
      && (forall f :: f != VdcOv && f != VdcUv && f != VdcAbnorm ==> (f in x <==> f in w))
  {
    hide ChannelStep;
  }

  /** Whatever the readings, each of the three bits is the run of its own channel and no other
      bit of the word moves. */
  lemma {:induction false} BitsAreIndependent(v: Vbus, w: FaultWord, volts: seq<real>)
    ensures var (u, x) := VbusRun(v, w, volts);
      && u == v.(ovp := u.ovp, uvp := u.uvp, abnormal := u.abnormal)
      && (u.ovp, VdcOv in x) == ChannelRun(v.ovp, VdcOv in w, Readings(volts, r => r >= v.ovpThreshold))
      && (u.uvp, VdcUv in x) == ChannelRun(v.uvp, VdcUv in w, Readings(volts, r => r <= v.uvpThreshold))
      && (u.abnormal, VdcAbnorm in x) ==
           ChannelRun(v.abnormal, VdcAbnorm in w, Readings(volts, r => r >= v.abnormalHigh || r <= v.abnormalLow))
      && (forall f :: f != VdcOv && f != VdcUv && f != VdcAbnorm ==> (f in x <==> f in w))
    decreases |volts|
  {
    hide ChannelStep, Readings, VbusStep;
    if volts == [] {
      NoReadings();
    } else {
      var (u, x) := VbusRun(v, w, volts[..|volts| - 1]);
      BitsAreIndependent(v, w, volts[..|volts| - 1]);
      StepBits(u, x, volts[|volts| - 1]);
      ReadingsSnoc(volts, r => r >= v.ovpThreshold);
      ReadingsSnoc(volts, r => r <= v.uvpThreshold);
      ReadingsSnoc(volts, r => r >= v.abnormalHigh || r <= v.abnormalLow);
    }
  }

  lemma NoReadings()
    ensures forall bad :: Readings([], bad) == []
  {
  }

  function Count(history: seq<bool>, x: bool): nat
    decreases |history|
  {
    if history == [] then 0 else
      var last := |history| - 1;
      Count(history[..last], x) + if history[last] == x then 1 else 0
  }

  ghost predicate ChannelValid(c: Channel) {
    0 <= c.cnt && (c.cnt == 0 || c.cnt <= c.time)
  }

  /** The counter stays between empty and full, moves by at most one net sample, and a bit that
      changed has seen the counter travel the whole way. */
  lemma {:induction false} ChannelDebounces(c: Channel, up: bool, history: seq<bool>)
    requires ChannelValid(c) && c.time >= 0
    ensures var (d, up') := ChannelRun(c, up, history);
      && ChannelValid(d) && d.time == c.time
      && d.cnt <= c.cnt + Count(history, true) && d.cnt >= c.cnt - Count(history, false)
      && (!up && up' ==> Count(history, true) >= c.time - c.cnt + 1)
      && (up && !up' ==> Count(history, false) >= c.cnt + 1)
    decreases |history|
  {
    if history != [] {
      ChannelDebounces(c, up, history[..|history| - 1]);
    }
  }

  /** A clear leaves the counter empty and a set leaves it full, so at least `time + 1` bad
      readings lie between a clear and the next set, and as many good ones the other way. */
  lemma ChannelHysteresis(c: Channel, up: bool, bad: bool, history: seq<bool>)
    requires ChannelValid(c) && c.time >= 0
    ensures var (d, up1) := ChannelStep(c, up, bad);
            var up2 := ChannelRun(d, up1, history).1;
      && (up && !up1 && up2 ==> Count(history, true) >= c.time + 1)
      && (!up && up1 && !up2 ==> Count(history, false) >= c.time + 1)
  {
    var (d, up1) := ChannelStep(c, up, bad);
    ChannelDebounces(d, up1, history);
  }

  /** `time + 1` readings of one kind in a row always decide the bit. */
  lemma {:induction false} ChannelDecides(c: Channel, up: bool, x: bool, history: seq<bool>)
    requires ChannelValid(c) && c.time >= 0
    requires forall k :: 0 <= k < |history| ==> history[k] == x
    ensures var (d, up') := ChannelRun(c, up, history);
      && (|history| > c.time ==> up' == x)
      && (x ==> d.cnt >= |history| || d.cnt == c.time)
      && (!x ==> d.cnt <= c.time - |history| || d.cnt == 0)
    decreases |history|
  {
    ChannelDebounces(c, up, history);
    if history != [] {
      var before := history[..|history| - 1];
      ChannelDecides(c, up, x, before);
      ChannelDebounces(c, up, before);
    }
  }
}
