/** The limiter across block seams, where a filter window spans samples of two blocks: how far
    the ceiling can be passed, and exactly when it cannot. */
module LimiterSeam {
  import opened Audio
  import opened Mixer
  import opened TruePeak
  import opened Loudnorm

  // ---- how far a seam window can pass the ceiling ------------------------------------------------

  lemma {:induction false} DotAdds(c: seq<real>, u: seq<real>, v: seq<real>, w: seq<real>, n: nat)
    requires n <= |c| && |u| == |v| == |w| && n <= |u| && forall j | 0 <= j < |u| :: w[j] == u[j] + v[j]
    ensures Dot(c, w, n) == Dot(c, u, n) + Dot(c, v, n)
  {
    if n == 0 {
    } else {
      DotAdds(c, u, v, w, n - 1);
      ScaleSwaps(c[n - 1], w[n - 1]);
      ScaleSwaps(c[n - 1], u[n - 1]);
      ScaleSwaps(c[n - 1], v[n - 1]);
      ScaleSums(u[n - 1], v[n - 1], c[n - 1]);
      hide Scale;
    }
  }

  lemma {:induction false} PeakIsSubadditive(f: Filter, u: Window, v: Window, w: Window, n: nat)
    requires f.Valid() && n <= OVERSAMPLE && forall j | 0 <= j < TAPS :: w[j] == u[j] + v[j]
    ensures Loudest(f, w, n) <= Loudest(f, u, n) + Loudest(f, v, n)
  {
    if n == 0 {
    } else {
      hide Dot;
      PeakIsSubadditive(f, u, v, w, n - 1);
      DotAdds(f.phases[n - 1], u, v, w, TAPS);
    }
  }

  /** An emitted window across the seam is the measured one attenuated, plus what the old
      samples were not attenuated by. */
  lemma SeamSplits(h: Window, xs: seq<real>, a: real, j: nat)
    requires j < TAPS
    ensures History(h, ScaledBy(xs, a))[j]
            == ScaledBy(History(h, xs), a)[j] + ScaledBy(History(h, Zeros(|xs|)), 1.0 - a)[j]
  {}

  /** A window across the seam, over history within `m`.  On the exact path it passes the ceiling
      by at most the part of the old samples the new attenuation did not reach: not at all when
      the block needed none or the history was silent.  It is not measured on the pre-screened
      path, where it stays below the larger of the ceiling and the gain bound times `m`, nor
      while the detector still fills, where the gain bound times the loudest sample in it is all
      that holds. */
  lemma SeamOvershootIsBounded(f: Filter, ceiling: real, dets: seq<Detector>, gained: seq<real>, c: nat, e: nat, m: real)
    requires f.Valid() && ceiling >= 0.0 && c < |dets| && (forall i | 0 <= i < |dets| :: dets[i].Valid())
    requires e < |gained| / |dets| && Within(dets[c].window, m)
    ensures var a, xs := Attenuation(f, ceiling, dets, gained), Channel(gained, |dets|, c);
            var heard := WindowPeak(f, History(dets[c].window, ScaledBy(xs[..e + 1], a)));
            var loudest := Scale(GainBound(f, OVERSAMPLE), m);
            heard <= if Screened(f, ceiling, gained) then Greater(ceiling, loudest)
                     else if dets[c].primed + e + 1 >= TAPS then ceiling + Scale(1.0 - a, loudest)
                     else Scale(GainBound(f, OVERSAMPLE), Greater(m, Scale(SamplePeak(gained, |gained|), a)))
  {
    hide WindowPeak, History, GainBound, Screened, SamplePeak;
    assert Abs(dets[c].window[0]) <= m;
    if Screened(f, ceiling, gained) {
      UnitScale(Channel(gained, |dets|, c)[..e + 1]);
      ScreenedSeam(f, ceiling, dets, gained, c, e, m);
    } else if dets[c].primed + e + 1 >= TAPS {
      MeasuredSeam(f, ceiling, dets, gained, c, e, m);
    } else {
      UnmeasuredSeam(f, ceiling, dets, gained, c, e, m);
    }
  }

  lemma UnmeasuredSeam(f: Filter, ceiling: real, dets: seq<Detector>, gained: seq<real>, c: nat, e: nat, m: real)
    requires f.Valid() && ceiling >= 0.0 && c < |dets| && e < |gained| / |dets| && Within(dets[c].window, m)
    ensures var a, xs := Attenuation(f, ceiling, dets, gained), Channel(gained, |dets|, c);
            WindowPeak(f, History(dets[c].window, ScaledBy(xs[..e + 1], a)))
            <= Scale(GainBound(f, OVERSAMPLE), Greater(m, Scale(SamplePeak(gained, |gained|), a)))
  {
    var a, xs, s := Attenuation(f, ceiling, dets, gained), Channel(gained, |dets|, c)[..e + 1], SamplePeak(gained, |gained|);
    AttenuationIsInUnit(f, ceiling, dets, gained);
    ChannelIsWithin(gained, |dets|, c);
    hide Attenuation, SamplePeak, GainBound;
    var w := History(dets[c].window, ScaledBy(xs, a));
    forall j | 0 <= j < TAPS
      ensures Abs(w[j]) <= Greater(m, Scale(s, a))
    {
      HistoryAt(dets[c].window, ScaledBy(xs, a), j);
      if j < |xs| {
        AbsScales(xs[|xs| - 1 - j], a);
        ScaleGrows(Abs(xs[|xs| - 1 - j]), s, a);
      }
    }
    GainBoundHolds(f, w, Greater(m, Scale(s, a)), OVERSAMPLE);
  }

  lemma AttenuationIsInUnit(f: Filter, ceiling: real, dets: seq<Detector>, gained: seq<real>)
    requires f.Valid() && |dets| > 0 && ceiling >= 0.0
    ensures 0.0 <= Attenuation(f, ceiling, dets, gained) <= 1.0
  {
    hide Screened;
    var peak := BlockPeak(f, dets, gained);
    if peak > ceiling && peak > 0.0 {
      DividedPeak(0.0, peak, ceiling);
      AttenuationAtMostOne(ceiling, peak);
    }
  }

  lemma ScreenedSeam(f: Filter, ceiling: real, dets: seq<Detector>, gained: seq<real>, c: nat, e: nat, m: real)
    requires f.Valid() && c < |dets| && e < |gained| / |dets| && Within(dets[c].window, m) && m >= 0.0
    requires Screened(f, ceiling, gained)
    ensures WindowPeak(f, History(dets[c].window, Channel(gained, |dets|, c)[..e + 1]))
            <= Greater(ceiling, Scale(GainBound(f, OVERSAMPLE), m))
  {
    hide SamplePeak, GainBound;
    var s, xs := SamplePeak(gained, |gained|), Channel(gained, |dets|, c)[..e + 1];
    ChannelIsWithin(gained, |dets|, c);
    var w := History(dets[c].window, xs);
    forall j | 0 <= j < TAPS
      ensures Abs(w[j]) <= Greater(m, s)
    {
      HistoryAt(dets[c].window, xs, j);
    }
    GainBoundHolds(f, w, Greater(m, s), OVERSAMPLE);
    ScaleSwaps(s, GainBound(f, OVERSAMPLE));
  }

  lemma ChannelIsWithin(gained: seq<real>, channels: nat, c: nat)
    requires c < channels
    ensures Within(Channel(gained, channels, c), SamplePeak(gained, |gained|))
  {
    hide SamplePeak;
    forall i | 0 <= i < |gained|
      ensures Abs(gained[i]) <= SamplePeak(gained, |gained|)
    {
      SamplePeakCovers(gained, |gained|, i);
    }
    ChannelKeepsWithin(gained, channels, c, SamplePeak(gained, |gained|));
  }

  lemma MeasuredSeam(f: Filter, ceiling: real, dets: seq<Detector>, gained: seq<real>, c: nat, e: nat, m: real)
    requires f.Valid() && ceiling >= 0.0 && c < |dets| && (forall i | 0 <= i < |dets| :: dets[i].Valid())
    requires e < |gained| / |dets| && dets[c].primed + e + 1 >= TAPS && Within(dets[c].window, m) && m >= 0.0
    requires !Screened(f, ceiling, gained)
    ensures var a, xs := Attenuation(f, ceiling, dets, gained), Channel(gained, |dets|, c);
            WindowPeak(f, History(dets[c].window, ScaledBy(xs[..e + 1], a)))
            <= ceiling + Scale(1.0 - a, Scale(GainBound(f, OVERSAMPLE), m))
  {
    var a, xs := Attenuation(f, ceiling, dets, gained), Channel(gained, |dets|, c)[..e + 1];
    var h := dets[c].window;
    MeasuredAcrossTheSeam(f, ceiling, dets, gained, c, e);
    hide WindowPeak, History, ScaledBy, GainBound, Attenuation, Scale, Screened;
    var whole, left := ScaledBy(History(h, xs), a), ScaledBy(History(h, Zeros(|xs|)), 1.0 - a);
    LeftOver(f, h, |xs|, 1.0 - a, m);
    forall j | 0 <= j < TAPS
      ensures History(h, ScaledBy(xs, a))[j] == whole[j] + left[j]
    {
      SeamSplits(h, xs, a, j);
    }
    SubadditivePeak(f, whole, left, History(h, ScaledBy(xs, a)));
  }

  lemma SubadditivePeak(f: Filter, u: Window, v: Window, w: Window)
    requires f.Valid() && forall j | 0 <= j < TAPS :: w[j] == u[j] + v[j]
    ensures WindowPeak(f, w) <= WindowPeak(f, u) + WindowPeak(f, v)
  {
    PeakIsSubadditive(f, u, v, w, OVERSAMPLE);
  }

  lemma LeftOver(f: Filter, h: Window, n: nat, b: real, m: real)
    requires f.Valid() && b >= 0.0 && Within(h, m) && m >= 0.0
    ensures WindowPeak(f, ScaledBy(History(h, Zeros(n)), b)) <= Scale(b, Scale(GainBound(f, OVERSAMPLE), m))
  {
    var kept := History(h, Zeros(n));
    forall j | 0 <= j < TAPS
      ensures Abs(kept[j]) <= m
    {
      if j >= n {
        assert Abs(h[j - n]) <= m;
      }
    }
    GainBoundHolds(f, kept, m, OVERSAMPLE);
    ScaledPeak(f, kept, b);
    hide GainBound, WindowPeak;
    ScaleGrows(WindowPeak(f, kept), Scale(GainBound(f, OVERSAMPLE), m), b);
    ScaleSwaps(Scale(GainBound(f, OVERSAMPLE), m), b);
  }

  lemma MeasuredAcrossTheSeam(f: Filter, ceiling: real, dets: seq<Detector>, gained: seq<real>, c: nat, e: nat)
    requires f.Valid() && ceiling >= 0.0 && c < |dets| && (forall i | 0 <= i < |dets| :: dets[i].Valid())
    requires e < |gained| / |dets| && dets[c].primed + e + 1 >= TAPS && !Screened(f, ceiling, gained)
    ensures var a := Attenuation(f, ceiling, dets, gained);
            && 0.0 <= a <= 1.0
            && WindowPeak(f, ScaledBy(History(dets[c].window, Channel(gained, |dets|, c)[..e + 1]), a)) <= ceiling
  {
    hide WindowPeak, SamplePeak, MaxPeak, GainBound, PushAll;
    var n, xs := |gained| / |dets|, Channel(gained, |dets|, c);
    var w := History(dets[c].window, xs[..e + 1]);
    UnitScale(w);
    assert xs[..n] == xs;
    PeakCoversWindow(f, dets[c].Reset(), xs, e);
    MaxPeakCovers(Probed(f, dets, gained, n), |dets|, c);
    var peak := BlockPeak(f, dets, gained);
    if peak > ceiling && peak > 0.0 {
      DividedPeak(WindowPeak(f, w), peak, ceiling);
      AttenuationAtMostOne(ceiling, peak);
      ScaledPeak(f, w, ceiling / peak);
    }
  }

  // ---- exactly when no seam can pass it -------------------------------------------------------------

  /** Each phase, fed at most `s` by its first `n` taps and at most `m` by the rest. */
  predicate SeamFits(f: Filter, ceiling: real, m: real, s: real, n: nat)
    requires f.Valid() && n <= TAPS
  {
    forall p | 0 <= p < |f.phases| :: SeamLoad(f.phases[p], m, s, n) <= ceiling
  }

  function SeamLoad(c: seq<real>, m: real, s: real, n: nat): real
    requires |c| == TAPS && n <= TAPS
  {
    Scale(L1(c, n), s) + Scale(L1(c, TAPS) - L1(c, n), m)
  }

  /** No twelve emitted samples, `n` of a block within `s` after a history within `m`, pass the
      ceiling on any phase. */
  ghost predicate NoSeamPasses(f: Filter, ceiling: real, m: real, s: real, n: nat)
    requires f.Valid()
  {
    forall h: Window, xs: seq<real> | |xs| == n && Within(h, m) && Within(xs, s) :: WindowPeak(f, History(h, xs)) <= ceiling
  }

  /** The condition is exact, phase by phase: it is attained when every sample matches the sign
      of its tap. */
  lemma SeamMeetsCeilingIff(f: Filter, ceiling: real, m: real, s: real, n: nat)
    requires f.Valid() && n <= TAPS && m >= 0.0 && s >= 0.0 && ceiling >= 0.0
    ensures NoSeamPasses(f, ceiling, m, s, n) <==> SeamFits(f, ceiling, m, s, n)
  {
    hide WindowPeak, SeamLoad, History;
    if SeamFits(f, ceiling, m, s, n) {
      forall h: Window, xs: seq<real> | |xs| == n && Within(h, m) && Within(xs, s)
        ensures WindowPeak(f, History(h, xs)) <= ceiling
      {
        FittingSeam(f, ceiling, m, s, n, h, xs);
      }
    } else {
      var p :| 0 <= p < |f.phases| && SeamLoad(f.phases[p], m, s, n) > ceiling;
      var h, xs := MatchingHistory(f.phases[p], m, n), MatchingBlock(f.phases[p], s, n);
      MatchingSeam(f, p, m, s, n);
    }
  }

  /** What tap `j` of a seam window can hold. */
  function Limit(m: real, s: real, n: nat, j: nat): real {
    if j < n then s else m
  }

  lemma FittingSeam(f: Filter, ceiling: real, m: real, s: real, n: nat, h: Window, xs: seq<real>)
    requires f.Valid() && n <= TAPS && ceiling >= 0.0 && SeamFits(f, ceiling, m, s, n)
    requires |xs| == n && Within(h, m) && Within(xs, s)
    ensures WindowPeak(f, History(h, xs)) <= ceiling
  {
    var w := History(h, xs);
    forall j | 0 <= j < TAPS
      ensures Abs(w[j]) <= Limit(m, s, n, j)
    {
      HistoryAt(h, xs, j);
    }
    LoudestFits(f, ceiling, m, s, n, w, OVERSAMPLE);
  }

  lemma {:induction false} LoudestFits(f: Filter, ceiling: real, m: real, s: real, n: nat, w: Window, phases: nat)
    requires f.Valid() && n <= TAPS && ceiling >= 0.0 && SeamFits(f, ceiling, m, s, n) && phases <= OVERSAMPLE
    requires forall j | 0 <= j < TAPS :: Abs(w[j]) <= Limit(m, s, n, j)
    ensures Loudest(f, w, phases) <= ceiling
  {
    if phases == 0 {
    } else {
      hide Dot, L1;
      LoudestFits(f, ceiling, m, s, n, w, phases - 1);
      SplitBound(f.phases[phases - 1], w, m, s, n, TAPS);
    }
  }

  /** The first `k` taps carry at most their share of either side. */
  lemma {:induction false} SplitBound(c: seq<real>, w: Window, m: real, s: real, n: nat, k: nat)
    requires |c| == TAPS && n <= TAPS && k <= TAPS && forall j | 0 <= j < TAPS :: Abs(w[j]) <= Limit(m, s, n, j)
    ensures k <= n ==> Abs(Dot(c, w, k)) <= Scale(L1(c, k), s)
    ensures k >= n ==> Abs(Dot(c, w, k)) <= Scale(L1(c, n), s) + Scale(L1(c, k) - L1(c, n), m)
  {
    if k == 0 {
      assert Scale(0.0, s) == 0.0 && Scale(0.0, m) == 0.0;
    } else {
      SplitBound(c, w, m, s, n, k - 1);
      ProductBound(c[k - 1], w[k - 1], Limit(m, s, n, k - 1));
      NextShare(c, m, s, n, k);
      hide Scale, L1, Abs;
      AbsSum(Dot(c, w, k - 1), Scale(c[k - 1], w[k - 1]));
    }
  }

  lemma AbsSum(x: real, y: real)
    ensures Abs(x + y) <= Abs(x) + Abs(y)
  {}

  lemma NextShare(c: seq<real>, m: real, s: real, n: nat, k: nat)
    requires |c| == TAPS && n <= TAPS && 0 < k <= TAPS
    ensures k <= n ==> Scale(L1(c, k), s) == Scale(L1(c, k - 1), s) + Scale(Abs(c[k - 1]), s)
    ensures k > n ==> Scale(L1(c, k) - L1(c, n), m) == Scale(L1(c, k - 1) - L1(c, n), m) + Scale(Abs(c[k - 1]), m)
    ensures k == n ==> Scale(L1(c, k) - L1(c, n), m) == 0.0
  {
    ScaleSums(L1(c, k - 1), Abs(c[k - 1]), s);
    ScaleSums(L1(c, k - 1) - L1(c, n), Abs(c[k - 1]), m);
    assert Scale(0.0, m) == 0.0;
    hide Scale;
  }

  /** A sample of magnitude `x` with the sign of `c`. */
  function Signed(c: real, x: real): real {
    if c < 0.0 then -x else x
  }

  function MatchingHistory(c: seq<real>, m: real, n: nat): Window
    requires |c| == TAPS && n <= TAPS
  {
    seq(TAPS, j requires 0 <= j < TAPS => if j + n < TAPS then Signed(c[j + n], m) else 0.0)
  }

  function MatchingBlock(c: seq<real>, s: real, n: nat): seq<real>
    requires |c| == TAPS && n <= TAPS
  {
    seq(n, i requires 0 <= i < n => Signed(c[n - 1 - i], s))
  }

  lemma MatchingSeam(f: Filter, p: nat, m: real, s: real, n: nat)
    requires f.Valid() && p < OVERSAMPLE && n <= TAPS && m >= 0.0 && s >= 0.0
    ensures var h, xs := MatchingHistory(f.phases[p], m, n), MatchingBlock(f.phases[p], s, n);
            && |xs| == n && Within(h, m) && Within(xs, s)
            && WindowPeak(f, History(h, xs)) >= SeamLoad(f.phases[p], m, s, n)
  {
    var c := f.phases[p];
    var w := History(MatchingHistory(c, m, n), MatchingBlock(c, s, n));
    forall j | 0 <= j < TAPS
      ensures w[j] == Signed(c[j], Limit(m, s, n, j))
    {
      HistoryAt(MatchingHistory(c, m, n), MatchingBlock(c, s, n), j);
    }
    MatchedDot(c, w, m, s, n, TAPS);
    PhaseIsCovered(f, w, p, OVERSAMPLE);
  }

  lemma {:induction false} MatchedDot(c: seq<real>, w: Window, m: real, s: real, n: nat, k: nat)
    requires |c| == TAPS && n <= TAPS && k <= TAPS && forall j | 0 <= j < TAPS :: w[j] == Signed(c[j], Limit(m, s, n, j))
    ensures k <= n ==> Dot(c, w, k) == Scale(L1(c, k), s)
    ensures k >= n ==> Dot(c, w, k) == Scale(L1(c, n), s) + Scale(L1(c, k) - L1(c, n), m)
  {
    if k == 0 {
      assert Scale(0.0, s) == 0.0 && Scale(0.0, m) == 0.0;
    } else {
      MatchedDot(c, w, m, s, n, k - 1);
      SignedProduct(c[k - 1], Limit(m, s, n, k - 1));
      NextShare(c, m, s, n, k);
      hide Scale, L1, Abs, Signed;
    }
  }

  lemma SignedProduct(c: real, x: real)
    ensures Scale(c, Signed(c, x)) == Scale(Abs(c), x)
  {}

  lemma {:induction false} PhaseIsCovered(f: Filter, w: Window, p: nat, phases: nat)
    requires f.Valid() && p < phases <= OVERSAMPLE
    ensures Abs(Dot(f.phases[p], w, TAPS)) <= Loudest(f, w, phases)
  {
    if p == phases - 1 {
    } else {
      PhaseIsCovered(f, w, p, phases - 1);
    }
  }

  // ---- the same for the blocks the limiter does not measure -------------------------------------------

  /** No block within `s`, whatever the channels, emits a seam window over the ceiling, `n` frames
      into the block, after histories within `m`. */
  ghost predicate EverySeamIsSafe(f: Filter, ceiling: real, m: real, s: real, n: nat)
    requires f.Valid() && 0 < n <= TAPS
  {
    forall dets: seq<Detector>, gained: seq<real>, c: nat |
      c < |dets| && Within(dets[c].window, m) && Within(gained, s) && n <= |gained| / |dets| ::
      EmittedSeam(f, ceiling, dets, gained, c, n) <= ceiling
  }

  /** The loudest phase over the window `n` frames into the emitted block. */
  function EmittedSeam(f: Filter, ceiling: real, dets: seq<Detector>, gained: seq<real>, c: nat, n: nat): real
    requires f.Valid() && c < |dets| && n <= |gained| / |dets|
  {
    var a := Attenuation(f, ceiling, dets, gained);
    WindowPeak(f, History(dets[c].window, ScaledBy(Channel(gained, |dets|, c)[..n], a)))
  }

  /** Blocks quiet enough to be pre-screened keep every seam at the ceiling exactly when each
      phase fits: the gain bound times their own peak says nothing about the history. */
  lemma ScreenedSeamsAreSafeIff(f: Filter, ceiling: real, m: real, s: real, n: nat)
    requires f.Valid() && 0 < n <= TAPS && m >= 0.0 && s >= 0.0 && ceiling >= 0.0
    requires Scale(s, GainBound(f, OVERSAMPLE)) <= ceiling
    ensures EverySeamIsSafe(f, ceiling, m, s, n) <==> SeamFits(f, ceiling, m, s, n)
  {
    hide SeamFits, GainBound, WindowPeak, History, Attenuation, Screened;
    SeamMeetsCeilingIff(f, ceiling, m, s, n);
    if NoSeamPasses(f, ceiling, m, s, n) {
      forall dets: seq<Detector>, gained: seq<real>, c: nat |
        c < |dets| && Within(dets[c].window, m) && Within(gained, s) && n <= |gained| / |dets|
        ensures EmittedSeam(f, ceiling, dets, gained, c, n) <= ceiling
      {
        QuietIsScreened(f, ceiling, dets, gained, s);
        var xs := Channel(gained, |dets|, c)[..n];
        UnitScale(xs);
        ChannelKeepsWithin(gained, |dets|, c, s);
      }
    } else {
      var h: Window, xs: seq<real> :| |xs| == n && Within(h, m) && Within(xs, s) && WindowPeak(f, History(h, xs)) > ceiling;
      var dets := [Detector(h, TAPS, 0.0)];
      QuietIsScreened(f, ceiling, dets, xs, s);
      UnitScale(xs);
      assert Channel(xs, 1, 0)[..n] == xs;
      assert EmittedSeam(f, ceiling, dets, xs, 0, n) > ceiling;
    }
  }

  lemma ChannelKeepsWithin(gained: seq<real>, channels: nat, c: nat, s: real)
    requires c < channels && Within(gained, s)
    ensures Within(Channel(gained, channels, c), s)
  {
    forall n | 0 <= n < |gained| / channels
      ensures Abs(Channel(gained, channels, c)[n]) <= s
    {
      ChannelIndex(|gained|, channels, c, n);
    }
  }

  lemma QuietIsScreened(f: Filter, ceiling: real, dets: seq<Detector>, gained: seq<real>, s: real)
    requires f.Valid() && |dets| > 0 && Within(gained, s) && s >= 0.0 && Scale(s, GainBound(f, OVERSAMPLE)) <= ceiling
    ensures Attenuation(f, ceiling, dets, gained) == 1.0
  {
    SamplePeakIsWithin(gained, s, |gained|);
    GainBoundIsNonNegative(f, OVERSAMPLE);
    ScaleGrows(SamplePeak(gained, |gained|), s, GainBound(f, OVERSAMPLE));
    hide Scale;
  }

  lemma {:induction false} SamplePeakIsWithin(gained: seq<real>, s: real, n: nat)
    requires Within(gained, s) && s >= 0.0 && n <= |gained|
    ensures SamplePeak(gained, n) <= s
  {
    if n == 0 {
    } else {
      SamplePeakIsWithin(gained, s, n - 1);
    }
  }

  // ---- a peak the limiter sees one block late ---------------------------------------------------------

  const QUIET: Window := [0.0, 0.0, 0.0, 0.0, 0.0, 0.0, 0.0, 0.0, 0.0, 0.0, 0.0, 0.0]
  /** Silence up to a full-scale last sample. */
  const LATE_PEAK: Window := [0.0, 0.0, 0.0, 0.0, 0.0, 0.0, 0.0, 0.0, 0.0, 0.0, 0.0, 1.0]

  /** A filter whose first phase passes samples through and whose first taps are all small, as
      the one the detector builds. */
  predicate PassesThrough(f: Filter, ceiling: real) {
    f.Valid() && f.phases[0] == PASS && forall p | 0 <= p < |f.phases| :: Abs(f.phases[p][0]) <= ceiling
  }

  /** A window with only its newest sample set shows each phase's first tap alone. */
  lemma {:induction false} NewestAlone(c: seq<real>, w: Window, x: real, n: nat)
    requires |c| == TAPS && n <= TAPS && w[0] == x && forall j | 0 < j < TAPS :: w[j] == 0.0
    ensures Dot(c, w, n) == if n == 0 then 0.0 else Scale(c[0], x)
  {
    if n == 0 {
    } else {
      NewestAlone(c, w, x, n - 1);
      assert Scale(c[n - 1], 0.0) == 0.0;
    }
  }

  lemma {:induction false} NewestPeak(f: Filter, ceiling: real, w: Window, x: real, n: nat)
    requires PassesThrough(f, ceiling) && ceiling >= 0.0 && n <= OVERSAMPLE
    requires 0.0 <= x <= 1.0 && w[0] == x && forall j | 0 < j < TAPS :: w[j] == 0.0
    ensures Loudest(f, w, n) <= ceiling
  {
    if n == 0 {
    } else {
      NewestPeak(f, ceiling, w, x, n - 1);
      var tap := f.phases[n - 1][0];
      NewestAlone(f.phases[n - 1], w, x, TAPS);
      AbsScales(tap, x);
      ScaleSwaps(Abs(tap), x);
      ScaleGrows(x, 1.0, Abs(tap));
      assert Scale(1.0, Abs(tap)) == Abs(tap);
    }
  }

  /** Pushing silence and then one sample, nothing louder than the ceiling is measured. */
  lemma {:induction false} LateIsUnmeasured(f: Filter, ceiling: real, d: Detector, n: nat)
    requires PassesThrough(f, ceiling) && ceiling >= 0.0 && n <= TAPS
    requires d.Valid() && d.peak == 0.0 && d.window == Silent()
    ensures PushAll(f, d, LATE_PEAK[..n]).peak <= ceiling
  {
    if n == 0 {
    } else {
      LateIsUnmeasured(f, ceiling, d, n - 1);
      var xs := LATE_PEAK[..n];
      assert xs[..n - 1] == LATE_PEAK[..n - 1];
      PushedHistory(f, d, xs);
      LastPushed(f, d, xs);
      hide PushAll, History, WindowPeak, PassesThrough;
      LateWindowFits(f, ceiling, n);
    }
  }

  lemma LastPushed(f: Filter, d: Detector, xs: seq<real>)
    requires f.Valid() && xs != []
    ensures var after := PushAll(f, d, xs);
            after.peak <= Greater(PushAll(f, d, xs[..|xs| - 1]).peak, WindowPeak(f, after.window))
  {
    hide WindowPeak;
  }

  lemma LateWindowFits(f: Filter, ceiling: real, n: nat)
    requires PassesThrough(f, ceiling) && ceiling >= 0.0 && 0 < n <= TAPS
    ensures WindowPeak(f, History(Silent(), LATE_PEAK[..n])) <= ceiling
  {
    var xs := LATE_PEAK[..n];
    var w := History(Silent(), xs);
    forall j | 0 < j < TAPS
      ensures w[j] == 0.0
    {
      HistoryAt(Silent(), xs, j);
    }
    HistoryAt(Silent(), xs, 0);
    NewestPeak(f, ceiling, w, xs[n - 1], OVERSAMPLE);
  }

  lemma {:induction false} PassL1(n: nat)
    requires n <= TAPS
    ensures L1(PASS, n) == if n > 6 then 1.0 else 0.0
  {
    if n == 0 {
    } else {
      PassL1(n - 1);
    }
  }

  lemma {:induction false} PassBound(f: Filter, n: nat)
    requires f.Valid() && f.phases[0] == PASS && 0 < n <= OVERSAMPLE
    ensures GainBound(f, n) >= 1.0
  {
    if n == 1 {
      PassL1(TAPS);
      assert GainBound(f, 0) == 0.0;
    } else {
      PassBound(f, n - 1);
    }
  }

  lemma {:induction false} PassDot(w: Window, n: nat)
    requires n <= TAPS
    ensures Dot(PASS, w, n) == if n > 6 then w[6] else 0.0
  {
    if n == 0 {
    } else {
      PassDot(w, n - 1);
      assert Scale(0.0, w[n - 1]) == 0.0 && Scale(1.0, w[n - 1]) == w[n - 1];
    }
  }

  /** A full-scale sample at the end of a block reaches the passthrough phase only in the next
      one: it is emitted unattenuated, the quiet block after it is not measured, and the window
      that shows it passes any ceiling below full scale. */
  lemma LatePeakEscapes(f: Filter, ceiling: real)
    requires PassesThrough(f, ceiling) && 0.0 <= ceiling < 1.0
    ensures var d0 := [Detector(Silent(), TAPS, 0.0)];
            var d1 := Limited(f, ceiling, d0, LATE_PEAK);
            && Attenuation(f, ceiling, d0, LATE_PEAK) == 1.0
            && EmittedSeam(f, ceiling, d1, QUIET, 0, 6) > ceiling
  {
    hide PushAll, GainBound, WindowPeak;
    LatePeakPasses(f, ceiling);
    var d1 := Limited(f, ceiling, [Detector(Silent(), TAPS, 0.0)], LATE_PEAK);
    QuietIsScreened(f, ceiling, d1, QUIET, 0.0);
    assert Channel(QUIET, 1, 0)[..6] == QUIET[..6];
    UnitScale(QUIET[..6]);
    var w := History(d1[0].window, QUIET[..6]);
    HistoryAt(d1[0].window, QUIET[..6], 6);
    SixthIsShown(f, w);
  }

  lemma SixthIsShown(f: Filter, w: Window)
    requires f.Valid() && f.phases[0] == PASS
    ensures WindowPeak(f, w) >= Abs(w[6])
  {
    PassDot(w, TAPS);
    PhaseIsCovered(f, w, 0, OVERSAMPLE);
  }

  /** The block itself: not screened, measured at or below the ceiling, left as it is. */
  lemma LatePeakPasses(f: Filter, ceiling: real)
    requires PassesThrough(f, ceiling) && 0.0 <= ceiling < 1.0
    ensures var d0 := [Detector(Silent(), TAPS, 0.0)];
            && Attenuation(f, ceiling, d0, LATE_PEAK) == 1.0
            && Limited(f, ceiling, d0, LATE_PEAK)[0].window[0] == 1.0
  {
    hide PushAll, GainBound;
    var d0 := [Detector(Silent(), TAPS, 0.0)];
    PassBound(f, OVERSAMPLE);
    SamplePeakCovers(LATE_PEAK, TAPS, 11);
    LoudEnough(SamplePeak(LATE_PEAK, TAPS), GainBound(f, OVERSAMPLE));
    assert !Screened(f, ceiling, LATE_PEAK);
    assert Channel(LATE_PEAK, 1, 0)[..12] == LATE_PEAK == LATE_PEAK[..12];
    LateIsUnmeasured(f, ceiling, d0[0].Reset(), 12);
    var probed := Probed(f, d0, LATE_PEAK, 12);
    assert MaxPeak(probed, 1) == Greater(MaxPeak(probed, 0), probed[0].peak);
    PushedHistory(f, d0[0].Reset(), LATE_PEAK);
    HistoryAt(Silent(), LATE_PEAK, 0);
  }

  lemma LoudEnough(x: real, g: real)
    requires x >= 1.0 && g >= 1.0
    ensures Scale(x, g) >= 1.0
  {
    ScaleGrows(1.0, x, g);
    assert Scale(1.0, g) == g;
  }

  /** The filter the detector builds lets it through, once its outermost taps are below the
      ceiling. */
  lemma BuiltFilterLetsItEscape(trig: Trig, f: Filter, ceiling: real)
    requires Turns(trig) && |f.phases| == OVERSAMPLE && 0.0 <= ceiling < 1.0
    requires forall p | 0 <= p < OVERSAMPLE :: f.phases[p] == Phase(trig, p) && Abs(f.phases[p][0]) <= ceiling
    ensures f.Valid()
    ensures var d0 := [Detector(Silent(), TAPS, 0.0)];
            var d1 := Limited(f, ceiling, d0, LATE_PEAK);
            && Attenuation(f, ceiling, d0, LATE_PEAK) == 1.0
            && EmittedSeam(f, ceiling, d1, QUIET, 0, 6) > ceiling
  {
    FirstPhasePassesThrough(trig);
    LatePeakEscapes(f, ceiling);
  }
}
