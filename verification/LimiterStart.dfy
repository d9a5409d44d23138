/** The limiter at start-up: until a detector holds twelve samples it measures nothing. */
module LimiterStart {
  import opened Audio
  import opened TruePeak
  import opened Loudnorm
  import opened LimiterSeam

  const FRESH: Detector := Detector(Silent(), 0, 0.0)

  /** A detector that still fills up counts no peak. */
  lemma {:induction false} FillingIsUnmeasured(f: Filter, d: Detector, xs: seq<real>)
    requires f.Valid() && d.Valid() && d.primed + |xs| < TAPS
    ensures PushAll(f, d, xs).peak == d.peak
  {
    if xs == [] {
    } else {
      var rest := xs[..|xs| - 1];
      FillingIsUnmeasured(f, d, rest);
      PushedHistory(f, d, rest);
    }
  }

  lemma {:induction false} NoPeak(dets: seq<Detector>, n: nat)
    requires n <= |dets| && forall i | 0 <= i < |dets| :: dets[i].peak == 0.0
    ensures MaxPeak(dets, n) == 0.0
  {
    if n == 0 {
    } else {
      NoPeak(dets, n - 1);
    }
  }

  predicate AllFresh(dets: seq<Detector>) {
    forall i | 0 <= i < |dets| :: dets[i] == FRESH
  }

  /** A first block of fewer than twelve frames is never attenuated, however loud. */
  lemma ShortStartIsUnlimited(f: Filter, ceiling: real, dets: seq<Detector>, gained: seq<real>)
    requires f.Valid() && |dets| > 0 && AllFresh(dets) && |gained| / |dets| < TAPS
    ensures Attenuation(f, ceiling, dets, gained) == 1.0
  {
    hide Screened, PushAll;
    var n := |gained| / |dets|;
    var probed := Probed(f, dets, gained, n);
    forall i | 0 <= i < |probed|
      ensures probed[i].peak == 0.0
    {
      assert dets[i] == FRESH;
      FillingIsUnmeasured(f, FRESH.Reset(), Channel(gained, |dets|, i)[..n]);
    }
    NoPeak(probed, |dets|);
  }

  /** No first block of `n` frames within `s`, whatever the channels, emits a window over the ceiling. */
  ghost predicate EveryStartIsSafe(f: Filter, ceiling: real, s: real, n: nat)
    requires f.Valid() && 0 < n < TAPS
  {
    forall dets: seq<Detector>, gained: seq<real>, c: nat |
      c < |dets| && AllFresh(dets) && Within(gained, s) && |gained| / |dets| == n ::
      EmittedSeam(f, ceiling, dets, gained, c, n) <= ceiling
  }

  /** First blocks of `n` frames within `s` stay at or below the ceiling exactly when the first `n`
      taps of every phase allow it: nothing is measured, so nothing but their own size keeps them
      there. */
  lemma StartIsSafeIff(f: Filter, ceiling: real, s: real, n: nat)
    requires f.Valid() && 0 < n < TAPS && s >= 0.0 && ceiling >= 0.0
    ensures EveryStartIsSafe(f, ceiling, s, n) <==> forall p | 0 <= p < |f.phases| :: Scale(L1(f.phases[p], n), s) <= ceiling
  {
    StartFits(f, ceiling, s, n);
    SeamMeetsCeilingIff(f, ceiling, 0.0, s, n);
    hide SeamFits, WindowPeak, History, Attenuation, AllFresh;
    if NoSeamPasses(f, ceiling, 0.0, s, n) {
      forall dets: seq<Detector>, gained: seq<real>, c: nat |
        c < |dets| && AllFresh(dets) && Within(gained, s) && |gained| / |dets| == n
        ensures EmittedSeam(f, ceiling, dets, gained, c, n) <= ceiling
      {
        ShortStartIsUnlimited(f, ceiling, dets, gained);
        UnitScale(Channel(gained, |dets|, c)[..n]);
        ChannelKeepsWithin(gained, |dets|, c, s);
        FreshIsSilent(dets, c);
      }
    } else {
      var h: Window, xs: seq<real> :| |xs| == n && Within(h, 0.0) && Within(xs, s) && WindowPeak(f, History(h, xs)) > ceiling;
      assert h == Silent();
      var dets := [FRESH];
      FreshIsFresh();
      ShortStartIsUnlimited(f, ceiling, dets, xs);
      UnitScale(xs);
      assert Channel(xs, 1, 0)[..n] == xs;
      assert EmittedSeam(f, ceiling, dets, xs, 0, n) > ceiling;
    }
  }

  lemma FreshIsSilent(dets: seq<Detector>, c: nat)
    requires c < |dets| && AllFresh(dets)
    ensures dets[c].window == Silent() && Within(dets[c].window, 0.0)
  {}

  lemma FreshIsFresh()
    ensures AllFresh([FRESH])
  {}

  lemma StartFits(f: Filter, ceiling: real, s: real, n: nat)
    requires f.Valid() && n <= TAPS
    ensures SeamFits(f, ceiling, 0.0, s, n) <==> forall p | 0 <= p < |f.phases| :: Scale(L1(f.phases[p], n), s) <= ceiling
  {
    forall p | 0 <= p < |f.phases|
      ensures SeamLoad(f.phases[p], 0.0, s, n) == Scale(L1(f.phases[p], n), s)
    {
      assert Scale(L1(f.phases[p], TAPS) - L1(f.phases[p], n), 0.0) == 0.0;
    }
  }

  // ---- a peak the limiter never sees ---------------------------------------------------------------

  /** A full-scale first sample, then silence. */
  const EARLY_PEAK: Window := [1.0, 0.0, 0.0, 0.0, 0.0, 0.0, 0.0, 0.0, 0.0, 0.0, 0.0, 0.0]

  /** A filter whose first phase passes samples through and whose last taps are all small. */
  predicate EndsQuietly(f: Filter, ceiling: real) {
    f.Valid() && f.phases[0] == PASS && forall p | 0 <= p < |f.phases| :: Abs(f.phases[p][TAPS - 1]) <= ceiling
  }

  /** A window with only its oldest sample set shows each phase's last tap alone. */
  lemma {:induction false} OldestAlone(c: seq<real>, w: Window, n: nat)
    requires |c| == TAPS && n <= TAPS && w[TAPS - 1] == 1.0 && forall j | 0 <= j < TAPS - 1 :: w[j] == 0.0
    ensures Dot(c, w, n) == if n == TAPS then c[TAPS - 1] else 0.0
  {
    if n == 0 {
    } else {
      OldestAlone(c, w, n - 1);
      assert Scale(c[n - 1], 0.0) == 0.0 && Scale(c[n - 1], 1.0) == c[n - 1];
    }
  }

  lemma {:induction false} OldestPeak(f: Filter, ceiling: real, w: Window, n: nat)
    requires EndsQuietly(f, ceiling) && ceiling >= 0.0 && n <= OVERSAMPLE
    requires w[TAPS - 1] == 1.0 && forall j | 0 <= j < TAPS - 1 :: w[j] == 0.0
    ensures Loudest(f, w, n) <= ceiling
  {
    if n == 0 {
    } else {
      OldestPeak(f, ceiling, w, n - 1);
      OldestAlone(f.phases[n - 1], w, TAPS);
    }
  }

  /** The only window of it a fresh detector measures is the one that ends it. */
  lemma EarlyPeakIsUnmeasured(f: Filter, ceiling: real)
    requires EndsQuietly(f, ceiling) && ceiling >= 0.0
    ensures PushAll(f, FRESH, EARLY_PEAK).peak <= ceiling
  {
    var rest := EARLY_PEAK[..TAPS - 1];
    FillingIsUnmeasured(f, FRESH, rest);
    PushedHistory(f, FRESH, EARLY_PEAK);
    LastPushed(f, FRESH, EARLY_PEAK);
    hide PushAll, WindowPeak, History;
    OldestWindow();
    OldestWindowFits(f, ceiling);
  }

  lemma OldestWindow()
    ensures var w := History(Silent(), EARLY_PEAK); w[TAPS - 1] == 1.0 && forall j | 0 <= j < TAPS - 1 :: w[j] == 0.0
  {
    forall j | 0 <= j < TAPS
      ensures History(Silent(), EARLY_PEAK)[j] == EARLY_PEAK[TAPS - 1 - j]
    {
      HistoryAt(Silent(), EARLY_PEAK, j);
    }
  }

  lemma OldestWindowFits(f: Filter, ceiling: real)
    requires EndsQuietly(f, ceiling) && ceiling >= 0.0
    ensures WindowPeak(f, History(Silent(), EARLY_PEAK)) <= ceiling
  {
    OldestWindow();
    hide History;
    OldestPeak(f, ceiling, History(Silent(), EARLY_PEAK), OVERSAMPLE);
  }

  /** A loud sample in a fresh limiter's first block, though the block fills the detector: it has
      left the passthrough tap before anything is measured, the block is emitted as it is, and the
      window that shows it passes any ceiling below full scale. */
  lemma EarlyPeakEscapes(f: Filter, ceiling: real)
    requires EndsQuietly(f, ceiling) && 0.0 <= ceiling < 1.0
    ensures Attenuation(f, ceiling, [FRESH], EARLY_PEAK) == 1.0
    ensures EmittedSeam(f, ceiling, [FRESH], EARLY_PEAK, 0, 7) > ceiling
  {
    hide PushAll, GainBound, WindowPeak;
    PassBound(f, OVERSAMPLE);
    SamplePeakCovers(EARLY_PEAK, TAPS, 0);
    LoudEnough(SamplePeak(EARLY_PEAK, TAPS), GainBound(f, OVERSAMPLE));
    assert !Screened(f, ceiling, EARLY_PEAK);
    assert Channel(EARLY_PEAK, 1, 0)[..12] == EARLY_PEAK;
    EarlyPeakIsUnmeasured(f, ceiling);
    var probed := Probed(f, [FRESH], EARLY_PEAK, 12);
    assert MaxPeak(probed, 1) == Greater(MaxPeak(probed, 0), probed[0].peak);
    assert Channel(EARLY_PEAK, 1, 0)[..7] == EARLY_PEAK[..7];
    UnitScale(EARLY_PEAK[..7]);
    HistoryAt(Silent(), EARLY_PEAK[..7], 6);
    SixthIsShown(f, History(Silent(), EARLY_PEAK[..7]));
  }
}
