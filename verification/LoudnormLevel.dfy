/** The level the normaliser emits: what its gain does to a reading, and where it settles. */
module LoudnormLevel {
  import opened Audio
  import opened Loudness
  import opened Loudnorm
  import TruePeak

  // ---- decibels are decibels ----------------------------------------------------------------

  /** A level as a factor is that level: the ceiling and the gain are in the same decibels. */
  lemma AmplitudeIsDecibels(db: Decibels, level: real)
    requires db.Logarithm()
    ensures db.Amplitude(level) > 0.0 && 20.0 * db.log10(db.Amplitude(level)) == level
  {}

  /** Samples gained by `level` decibels carry energy `level` units of loudness higher. */
  lemma GainMovesLoudness(db: Decibels, level: real, energy: real)
    requires db.Logarithm() && energy > 0.0
    ensures var g := db.Amplitude(level);
            Scale(Scale(g, g), energy) > 0.0 && db.Lufs(Scale(Scale(g, g), energy)) == db.Lufs(energy) + level
  {
    var g := db.Amplitude(level);
    AmplitudeIsDecibels(db, level);
    Positive(g, g);
    Positive(Scale(g, g), energy);
    assert db.log10(Scale(Scale(g, g), energy)) == db.log10(g) + db.log10(g) + db.log10(energy);
  }

  lemma Positive(a: real, b: real)
    requires a > 0.0 && b > 0.0
    ensures Scale(a, b) > 0.0
  {}

  // ---- the gained stream, as a meter reads it ------------------------------------------------

  /** The weighting is linear: scaling its state and its input scales its new state and its
      output, and a fresh state is zero. */
  ghost predicate Linear<F(!new)>(k: KWeight<F>, scaled: (real, F) -> F) {
    && (forall g: real :: scaled(g, k.init) == k.init)
    && (forall g: real, f: F, x: real ::
          k.step(scaled(g, f), Scale(x, g)) == (scaled(g, k.step(f, x).0), Scale(k.step(f, x).1, g)))
  }

  function ScaledStates<F>(scaled: (real, F) -> F, g: real, filters: seq<F>): (r: seq<F>)
    ensures |r| == |filters|
  {
    seq(|filters|, c requires 0 <= c < |filters| => scaled(g, filters[c]))
  }

  /** The meter that has heard everything `g` times as loud. */
  function ScaledMeter<F>(scaled: (real, F) -> F, g: real, m: Meter<F>): (r: Meter<F>)
    ensures |r.filters| == |m.filters|
  {
    Meter(ScaledStates(scaled, g, m.filters), m.filled, Scale(Scale(g, g), m.weightedSq),
          TruePeak.ScaledBy(m.subblocks, Scale(g, g)))
  }

  /** A frame `g` times as loud has the square of `g` times the energy. */
  lemma {:induction false} ScaledFrameHasSquaredEnergy<F(!new)>(k: KWeight<F>, scaled: (real, F) -> F, g: real,
                                                                layout: ChannelLayout, filters: seq<F>, frame: seq<real>, n: nat)
    requires Linear(k, scaled) && n <= |filters| == |frame|
    ensures var (states, energy) := Weighed(k, layout, filters, frame, n);
            Weighed(k, layout, ScaledStates(scaled, g, filters), TruePeak.ScaledBy(frame, g), n)
            == (ScaledStates(scaled, g, states), Scale(Scale(g, g), energy))
  {
    hide Linear, Scale, ChannelWeight;
    if n == 0 {
      ScaleZero(Scale(g, g));
    } else {
      ScaledFrameHasSquaredEnergy(k, scaled, g, layout, filters, frame, n - 1);
      ScaledNext(k, scaled, g, layout, filters, frame, n);
    }
  }

  lemma ScaledNext<F(!new)>(k: KWeight<F>, scaled: (real, F) -> F, g: real, layout: ChannelLayout, filters: seq<F>,
                            frame: seq<real>, n: nat)
    requires Linear(k, scaled) && 0 < n <= |filters| == |frame|
    requires var (states, energy) := Weighed(k, layout, filters, frame, n - 1);
             Weighed(k, layout, ScaledStates(scaled, g, filters), TruePeak.ScaledBy(frame, g), n - 1)
             == (ScaledStates(scaled, g, states), Scale(Scale(g, g), energy))
    ensures var (states, energy) := Weighed(k, layout, filters, frame, n);
            Weighed(k, layout, ScaledStates(scaled, g, filters), TruePeak.ScaledBy(frame, g), n)
            == (ScaledStates(scaled, g, states), Scale(Scale(g, g), energy))
  {
    hide Weighed, Linear, Scale, ChannelWeight, ScaledStates, TruePeak.ScaledBy;
    var (states, energy) := Weighed(k, layout, filters, frame, n - 1);
    var (f, y) := k.step(filters[n - 1], frame[n - 1]);
    NextWeighed(k, layout, filters, frame, n, states, energy, f, y);
    ScaledStep(k, scaled, g, filters[n - 1], frame[n - 1]);
    ScaledAt(frame, g, n - 1);
    ScaledState(scaled, g, filters, n - 1);
    NextWeighed(k, layout, ScaledStates(scaled, g, filters), TruePeak.ScaledBy(frame, g), n,
                ScaledStates(scaled, g, states), Scale(Scale(g, g), energy), scaled(g, f), Scale(y, g));
    ScaledUpdate(scaled, g, states, n - 1, f);
    SquaredGain(g, ChannelWeight(layout, n - 1), y, energy);
  }

  lemma NextWeighed<F>(k: KWeight<F>, layout: ChannelLayout, filters: seq<F>, frame: seq<real>, n: nat,
                       states: seq<F>, energy: real, f: F, y: real)
    requires 0 < n <= |filters| == |frame| == |states|
    requires Weighed(k, layout, filters, frame, n - 1) == (states, energy)
    requires k.step(filters[n - 1], frame[n - 1]) == (f, y)
    ensures Weighed(k, layout, filters, frame, n)
            == (states[n - 1 := f], energy + Scale(Scale(ChannelWeight(layout, n - 1), y), y))
  {}

  lemma ScaledStep<F(!new)>(k: KWeight<F>, scaled: (real, F) -> F, g: real, f: F, x: real)
    requires Linear(k, scaled)
    ensures k.step(scaled(g, f), Scale(x, g)) == (scaled(g, k.step(f, x).0), Scale(k.step(f, x).1, g))
  {}

  lemma ScaledAt(s: seq<real>, g: real, i: nat)
    requires i < |s|
    ensures TruePeak.ScaledBy(s, g)[i] == Scale(s[i], g)
  {}

  lemma ScaledState<F>(scaled: (real, F) -> F, g: real, filters: seq<F>, i: nat)
    requires i < |filters|
    ensures ScaledStates(scaled, g, filters)[i] == scaled(g, filters[i])
  {}

  lemma ScaledUpdate<F>(scaled: (real, F) -> F, g: real, filters: seq<F>, i: nat, f: F)
    requires i < |filters|
    ensures ScaledStates(scaled, g, filters[i := f]) == ScaledStates(scaled, g, filters)[i := scaled(g, f)]
  {}

  lemma SquaredGain(g: real, w: real, y: real, energy: real)
    ensures Scale(Scale(g, g), energy + Scale(Scale(w, y), y))
            == Scale(Scale(g, g), energy) + Scale(Scale(w, Scale(y, g)), Scale(y, g))
  {
    var q := g * g;
    assert w * (y * g) * (y * g) == q * (w * y * y);
  }

  lemma ScaledPush<F(!new)>(k: KWeight<F>, scaled: (real, F) -> F, g: real, format: AudioFormat, m: Meter<F>, frame: seq<real>)
    requires Linear(k, scaled) && |m.filters| == |frame|
    ensures Pushed(k, format, ScaledMeter(scaled, g, m), TruePeak.ScaledBy(frame, g))
            == ScaledMeter(scaled, g, Pushed(k, format, m, frame))
  {
    ScaledFrameHasSquaredEnergy(k, scaled, g, format.layout, m.filters, frame, |frame|);
    hide Weighed, SubblockLen, Linear;
    var (energy, len, q) := (Weighed(k, format.layout, m.filters, frame, |frame|).1, SubblockLen(format.sampleRate), Scale(g, g));
    ScaleAdds(q, m.weightedSq, energy);
    ScaleDivides(q, m.weightedSq + energy, len as real);
    hide Scale;
    assert Scale(q, 0.0) == 0.0 by { ScaleZero(q); }
    assert TruePeak.ScaledBy(m.subblocks + [(m.weightedSq + energy) / len as real], q)
      == TruePeak.ScaledBy(m.subblocks, q) + [Scale((m.weightedSq + energy) / len as real, q)];
  }

  lemma ScaleZero(q: real)
    ensures Scale(q, 0.0) == 0.0
  {}

  lemma ScaleAdds(q: real, a: real, b: real)
    ensures Scale(q, a + b) == Scale(q, a) + Scale(q, b)
  {}

  lemma ScaleDivides(q: real, a: real, d: real)
    requires d > 0.0
    ensures Scale(a / d, q) == Scale(q, a) / d
  {}

  lemma {:induction false} ScaledStream<F(!new)>(k: KWeight<F>, scaled: (real, F) -> F, g: real, format: AudioFormat, m: Meter<F>,
                                                 s: seq<real>, n: nat)
    requires Linear(k, scaled) && |m.filters| == format.Channels() && n <= |s| / format.Channels()
    ensures PushedAll(k, format, ScaledMeter(scaled, g, m), TruePeak.ScaledBy(s, g), n)
            == ScaledMeter(scaled, g, PushedAll(k, format, m, s, n))
  {
    hide Pushed, Linear, ScaledMeter;
    if n == 0 {
    } else {
      ScaledStream(k, scaled, g, format, m, s, n - 1);
      ScaledPush(k, scaled, g, format, PushedAll(k, format, m, s, n - 1), FrameAt(s, format.Channels(), n - 1));
      FrameBounds(|s|, format.Channels(), n - 1);
      assert FrameAt(TruePeak.ScaledBy(s, g), format.Channels(), n - 1)
        == TruePeak.ScaledBy(FrameAt(s, format.Channels(), n - 1), g);
    }
  }

  lemma {:induction false} ScaledSum(s: seq<real>, q: real)
    ensures Sum(TruePeak.ScaledBy(s, q)) == Scale(q, Sum(s))
  {
    if s == [] {
      ScaleZero(q);
    } else {
      var rest, x := s[..|s| - 1], s[|s| - 1];
      ScaledSum(rest, q);
      assert TruePeak.ScaledBy(s, q)[..|s| - 1] == TruePeak.ScaledBy(rest, q);
      ScaleAdds(q, Sum(rest), x);
      ScaleSwaps(x, q);
    }
  }

  lemma ScaledWindow(sub: seq<real>, q: real, n: nat)
    requires 0 < n <= |sub|
    ensures WindowEnergy(TruePeak.ScaledBy(sub, q), n) == Some(Scale(q, WindowEnergy(sub, n).value))
  {
    var tail := sub[|sub| - n..];
    ScaledSum(tail, q);
    assert TruePeak.ScaledBy(sub, q)[|sub| - n..] == TruePeak.ScaledBy(tail, q);
    ScaleDivides(q, Sum(tail), n as real);
    ScaleSwaps(q, Mean(tail));
  }

  /** A fresh meter after a run of whole frames. */
  function Heard<F>(k: KWeight<F>, format: AudioFormat, s: seq<real>): Meter<F> {
    PushedAll(k, format, Meter(seq(format.Channels(), _ => k.init), 0, 0.0, []), s, |s| / format.Channels())
  }

  /** Whatever is played, played `level` decibels louder it reads `level` units higher over any
      window, gated where that falls below the absolute gate. */
  lemma GainIsHeard<F(!new)>(k: KWeight<F>, scaled: (real, F) -> F, db: Decibels, format: AudioFormat, s: seq<real>,
                             level: real, n: nat)
    requires Linear(k, scaled) && db.Logarithm()
    ensures var before := WindowEnergy(Heard(k, format, s).subblocks, n);
            var after := WindowLoudness(db, Heard(k, format, TruePeak.ScaledBy(s, db.Amplitude(level))).subblocks, n);
            after == if before.Some? && before.value > 0.0 && db.Lufs(before.value) + level >= ABSOLUTE_GATE_LUFS
                     then Some(db.Lufs(before.value) + level) else None
  {
    hide Heard, Linear, Decibels.Logarithm, Decibels.Amplitude, WindowLoudness, WindowEnergy;
    HeardIsScaled(k, scaled, format, s, db.Amplitude(level));
    ReadingMoves(db, level, Heard(k, format, s).subblocks, n);
  }

  lemma HeardIsScaled<F(!new)>(k: KWeight<F>, scaled: (real, F) -> F, format: AudioFormat, s: seq<real>, g: real)
    requires Linear(k, scaled)
    ensures Heard(k, format, TruePeak.ScaledBy(s, g)).subblocks == TruePeak.ScaledBy(Heard(k, format, s).subblocks, Scale(g, g))
  {
    var idle := Meter(seq(format.Channels(), _ => k.init), 0, 0.0, []);
    ScaleZero(Scale(g, g));
    assert ScaledMeter(scaled, g, idle) == idle;
    ScaledStream(k, scaled, g, format, idle, s, |s| / format.Channels());
  }

  lemma ReadingMoves(db: Decibels, level: real, sub: seq<real>, n: nat)
    requires db.Logarithm()
    ensures var before, g := WindowEnergy(sub, n), db.Amplitude(level);
            WindowLoudness(db, TruePeak.ScaledBy(sub, Scale(g, g)), n)
            == if before.Some? && before.value > 0.0 && db.Lufs(before.value) + level >= ABSOLUTE_GATE_LUFS
               then Some(db.Lufs(before.value) + level) else None
  {
    var q := Scale(db.Amplitude(level), db.Amplitude(level));
    hide Decibels.Amplitude, Decibels.Lufs, Decibels.Logarithm, Scale, Mean;
    if 0 < n <= |sub| {
      ScaledWindow(sub, q, n);
      LouderWindow(db, level, WindowEnergy(sub, n).value);
    }
  }

  /** A window that holds no energy still holds none. */
  lemma LouderWindow(db: Decibels, level: real, e: real)
    requires db.Logarithm()
    ensures var q := Scale(db.Amplitude(level), db.Amplitude(level));
            && (e > 0.0 ==> Scale(q, e) > 0.0 && db.Lufs(Scale(q, e)) == db.Lufs(e) + level)
            && (e <= 0.0 ==> Scale(q, e) <= 0.0)
  {
    var q := Scale(db.Amplitude(level), db.Amplitude(level));
    AmplitudeIsDecibels(db, level);
    Positive(db.Amplitude(level), db.Amplitude(level));
    if e > 0.0 {
      GainMovesLoudness(db, level, e);
    } else {
      NotPositive(q, e);
    }
  }

  lemma NotPositive(q: real, e: real)
    requires q > 0.0 && e <= 0.0
    ensures Scale(q, e) <= 0.0
  {}

  // ---- how much is kept --------------------------------------------------------------------------

  /** After any block at most 64 sub-blocks are held, the newest, and enough for the window read
      whenever there have been enough. */
  lemma HistoryIsBounded<F>(k: KWeight<F>, format: AudioFormat, m: Meter<F>, samples: seq<real>)
    requires |m.filters| == format.Channels()
    ensures var held, all := Metered(k, format, m, samples).subblocks,
                             PushedAll(k, format, m, samples, |samples| / format.Channels()).subblocks;
            && |held| <= 64 && |held| <= |all| && held == all[|all| - |held|..]
            && (|held| >= 30 <==> |all| >= 30)
  {
    hide PushedAll;
  }

  // ---- where the gain settles -----------------------------------------------------------------

  /** Gated silence relaxes the gain toward none, by the same decay from either side. */
  lemma SilenceRelaxesGain(targetLufs: real, gain: real, readings: seq<Option<real>>)
    requires forall i | 0 <= i < |readings| :: readings[i] == None
    ensures GainAfter(targetLufs, gain, readings) == Scale(Decay(|readings|), gain)
  {
    GainConverges(targetLufs, gain, readings, None);
  }

  /** A bus out of reach is moved as far as the band allows, and no further. */
  lemma GainStopsAtTheBand(targetLufs: real, gain: real, readings: seq<Option<real>>, m: real)
    requires forall i | 0 <= i < |readings| :: readings[i] == Some(m)
    ensures targetLufs - m > 24.0 ==>
              GainAfter(targetLufs, gain, readings) == 24.0 + Scale(Decay(|readings|), gain - 24.0)
    ensures targetLufs - m < -24.0 ==>
              GainAfter(targetLufs, gain, readings) == -24.0 + Scale(Decay(|readings|), gain + 24.0)
  {
    GainConverges(targetLufs, gain, readings, Some(m));
  }

  /** The decay is by 0.85 a block, so what is left of any shortfall is below any bound in time. */
  lemma {:induction false} DecayHalves(n: nat)
    ensures 0.0 < Decay(n + 5) < Scale(0.5, Decay(n))
  {
    DecayIsPositive(n);
    assert Decay(n + 1) == 0.85 * Decay(n);
    assert Decay(n + 2) == 0.85 * Decay(n + 1);
    assert Decay(n + 3) == 0.85 * Decay(n + 2);
    assert Decay(n + 4) == 0.85 * Decay(n + 3);
    assert Decay(n + 5) == 0.85 * Decay(n + 4);
  }

  lemma {:induction false} DecayIsPositive(n: nat)
    ensures Decay(n) > 0.0
  {
    if n == 0 {
    } else {
      DecayIsPositive(n - 1);
    }
  }

  lemma ReadingIsLufs(db: Decibels, sub: seq<real>, n: nat)
    requires WindowLoudness(db, sub, n).Some?
    ensures var e := WindowEnergy(sub, n);
            e.Some? && e.value > 0.0 && WindowLoudness(db, sub, n) == Some(db.Lufs(e.value))
  {}

  /** What all of it is for: a bus that reads `m` within reach of the target, played at the gain
      the normaliser has after any number of such readings, reads the target to within the
      decayed shortfall it started from. */
  lemma MakeupIsHeard<F(!new)>(k: KWeight<F>, scaled: (real, F) -> F, db: Decibels, format: AudioFormat, s: seq<real>, n: nat,
                               targetLufs: real, gain: real, readings: seq<Option<real>>, m: real)
    requires Linear(k, scaled) && db.Logarithm()
    requires WindowLoudness(db, Heard(k, format, s).subblocks, n) == Some(m) && -24.0 <= targetLufs - m <= 24.0
    requires forall i | 0 <= i < |readings| :: readings[i] == Some(m)
    ensures var level := GainAfter(targetLufs, gain, readings);
            var heard := WindowLoudness(db, Heard(k, format, TruePeak.ScaledBy(s, db.Amplitude(level))).subblocks, n);
            && (heard.Some? <==> targetLufs + Scale(Decay(|readings|), m + gain - targetLufs) >= ABSOLUTE_GATE_LUFS)
            && (heard.Some? ==> heard.value == targetLufs + Scale(Decay(|readings|), m + gain - targetLufs))
  {
    hide Heard, Linear, Decibels.Logarithm, Decibels.Amplitude, WindowLoudness, WindowEnergy, GainAfter, Decay;
    MakeupReachesTarget(targetLufs, gain, readings, m);
    GainIsHeard(k, scaled, db, format, s, GainAfter(targetLufs, gain, readings), n);
    ReadingIsLufs(db, Heard(k, format, s).subblocks, n);
  }
}
