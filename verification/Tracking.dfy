/** The encoder inside the running system: position tracking from one start of the motor to the
    next. */
module Tracking {
  import opened MotorTypes
  import opened Handlers
  import opened Lifecycle
  import Encoder
  import Trig

  /** The encoder samples of a run. */
  function SamplesOf(events: seq<Event>): seq<Encoder.Sample> {
    if events == [] then [] else
      var before, e := events[..|events| - 1], events[|events| - 1];
      if e.MainInterrupt? then SamplesOf(before) + [e.i.sample] else SamplesOf(before)
  }

  /** No call of the main loop starts the motor, which would reset the encoder. */
  ghost predicate OneEpoch(c: Cfg, m: Machine, events: seq<Event>)
    requires CfgOk(c)
    decreases |events|
  {
    events == [] ||
    var before, e := events[..|events| - 1], events[|events| - 1];
    OneEpoch(c, m, before) && !(e.MainLoop? && Starts(After(c, m, before)))
  }

  lemma EncodedLaw(c: Cfg, m: Machine, i: MainIn)
    requires c.observer == UseEncoder
    ensures Encoder.SameCounts(Encoder.Step(m.enc, c.encoder, i.sample, m.run.tgtDir == Ccw), Encoded(c, m, i))
  {
    hide Encoder.Step, Trig.Normal;
  }

  lemma SameCountsTransitive(e: Encoder.Enc, f: Encoder.Enc, g: Encoder.Enc)
    requires Encoder.SameCounts(e, f) && Encoder.SameCounts(f, g)
    ensures Encoder.SameCounts(e, g)
  {
  }

  lemma OffsetOnly(e: Encoder.Enc, offset: real)
    ensures Encoder.SameCounts(e, e.(offset := offset))
  {
  }

  /** One step moves the encoder exactly when it is a main interrupt. */
  lemma EncoderStep(c: Cfg, m: Machine, e: Event)
    requires Valid(c, m) && c.observer == UseEncoder && !(e.MainLoop? && Starts(m))
    ensures var n := Step(c, m, e);
      && n.run.tgtDir == m.run.tgtDir
      && (if e.MainInterrupt? then
            Encoder.SameCounts(Encoder.Step(m.enc, c.encoder, e.i.sample, m.run.tgtDir == Ccw), n.enc)
          else n.enc == m.enc)
  {
    hide Valid, MainLoopStep, MainIsrStep, TickerStep, Guard, Encoded, Starts, IsFresh, Encoder.Step, CfgOk;
    ConfigOk(c, m);
    match e
    case MainLoop => MainLoopLaw(c, m);
    case MainInterrupt(i) =>
      MainIsrLaw(c, m, i);
      EncodedLaw(c, m, i);
      OffsetOnly(Encoded(c, m, i), MainIsrStep(c, m, i).enc.offset);
      SameCountsTransitive(Encoder.Step(m.enc, c.encoder, i.sample, m.run.tgtDir == Ccw), Encoded(c, m, i),
                           MainIsrStep(c, m, i).enc);
    case Tick(t) => TickLaw(c, m, t);
    case _ => OtherLaw(c, m, e);
  }

  /** From one start to the next the direction is fixed and the encoder of the running system
      counts as the encoder on its own does, whatever the other handlers do. */
  lemma {:induction false} EncoderFollows(c: Cfg, m: Machine, events: seq<Event>)
    requires Valid(c, m) && CfgOk(c) && c.observer == UseEncoder && OneEpoch(c, m, events)
    ensures var n := After(c, m, events);
      && n.run.tgtDir == m.run.tgtDir
      && Encoder.SameCounts(Encoder.Run(m.enc, c.encoder, SamplesOf(events), m.run.tgtDir == Ccw), n.enc)
    decreases |events|
  {
    hide Valid, Step, CfgOk, Encoder.Step, Starts, Encoder.SameCounts;
    if events == [] {
      OffsetOnly(m.enc, m.enc.offset);
    } else {
      var last := |events| - 1;
      EncoderFollows(c, m, events[..last]);
      AfterValid(c, m, events[..last]);
      var n, e := After(c, m, events[..last]), events[last];
      EncoderStep(c, n, e);
      if e.MainInterrupt? {
        var ccw, before := m.run.tgtDir == Ccw, SamplesOf(events[..last]);
        var f := Encoder.Run(m.enc, c.encoder, before, ccw);
        assert SamplesOf(events)[..|before|] == before;
        Encoder.CountsIgnorePhase(f, n.enc, c.encoder, e.i.sample, ccw);
        SameCountsTransitive(Encoder.Step(f, c.encoder, e.i.sample, ccw),
                             Encoder.Step(n.enc, c.encoder, e.i.sample, ccw), Step(c, n, e).enc);
      }
    }
  }

  /** Tracking from start to start. Started by the main loop in either direction, with samples of
      a shaft that moves less than half a turn between successful ones: until a position is seen
      the shadow count is zero; from then on it follows the true position at the distance that the
      first reading fixed, which is none for a shaft that starts less than half a turn from the zero
      mark, over any number of turns, whatever the other handlers do. */
  lemma TracksSinceStart(c: Cfg, m: Machine, events: seq<Event>, seen: seq<Encoder.Event>)
    requires Valid(c, m) && CfgOk(c) && c.observer == UseEncoder && Starts(m)
    requires OneEpoch(c, MainLoopStep(c, m), events)
    requires Encoder.Delivers(SamplesOf(events), seen, MainLoopStep(c, m).run.tgtDir == Ccw)
    requires Encoder.FirstSeen(seen) != [] ==> Encoder.Slow(seen, Encoder.FirstSeen(seen)[0])
    ensures var n, first := After(c, MainLoopStep(c, m), events), Encoder.FirstSeen(seen);
      if first == [] then n.enc.shadow == 0 else
        && n.enc.shadow - Encoder.LastSeen(seen, first[0])
             == Encoder.FirstCount(first[0], n.run.tgtDir == Ccw) - first[0]
        && (-Encoder.Half < first[0] < Encoder.Half ==> n.enc.shadow == Encoder.LastSeen(seen, first[0]))
        && n.enc.shadow % Encoder.Cpr == n.enc.cnt % Encoder.Cpr
        && n.enc.pos == n.enc.shadow as real / Encoder.CprF
  {
    hide Valid, Step, CfgOk, MainLoopStep, Starts, IsFresh, Encoder.Step, Encoder.FirstCount, Encoder.Run, OneEpoch,
         Encoder.Slow, Encoder.Reset, SamplesOf, After;
    MainLoopLaw(c, m);
    var s := MainLoopStep(c, m);
    var ccw := s.run.tgtDir == Ccw;
    EncoderFollows(c, s, events);
    Encoder.ResetUnseen(m.enc);
    if Encoder.FirstSeen(seen) != [] {
      Encoder.FirstCountLaw(Encoder.FirstSeen(seen)[0], ccw);
    }
    Encoder.TracksFromReset(s.enc, c.encoder, SamplesOf(events), seen, ccw);
  }
}
