/** The program bus's live loudness normaliser: a smoothed makeup gain and a feedforward
    true-peak limiter over persistent detectors. */
module Loudnorm {
  import opened Audio
  import Loudness
  import opened TruePeak

  // ---- the limiter as a function ------------------------------------------------------------

  /** The largest magnitude of a span. */
  function SamplePeak(s: seq<real>, n: nat): real
    requires n <= |s|
  {
    if n == 0 then 0.0 else Greater(SamplePeak(s, n - 1), Abs(s[n - 1]))
  }

  /** The detectors of every channel after `frames` frames of a block, peaks reset first. */
  function Probed(f: Filter, dets: seq<Detector>, gained: seq<real>, frames: nat): (r: seq<Detector>)
    requires f.Valid() && |dets| > 0 && frames <= |gained| / |dets|
    ensures |r| == |dets|
  {
    seq(|dets|, c requires 0 <= c < |dets| => PushAll(f, dets[c].Reset(), Channel(gained, |dets|, c)[..frames]))
  }

  function MaxPeak(dets: seq<Detector>, n: nat): real
    requires n <= |dets|
  {
    if n == 0 then 0.0 else Greater(MaxPeak(dets, n - 1), dets[n - 1].peak)
  }

  /** Whether the sample peak alone proves a block safe. */
  predicate Screened(f: Filter, ceiling: real, gained: seq<real>)
    requires f.Valid()
  {
    Scale(SamplePeak(gained, |gained|), GainBound(f, OVERSAMPLE)) <= ceiling
  }

  function BlockPeak(f: Filter, dets: seq<Detector>, gained: seq<real>): real
    requires f.Valid() && |dets| > 0
  {
    MaxPeak(Probed(f, dets, gained, |gained| / |dets|), |dets|)
  }

  /** The attenuation a block gets. */
  function Attenuation(f: Filter, ceiling: real, dets: seq<Detector>, gained: seq<real>): real
    requires f.Valid() && |dets| > 0
  {
    if Screened(f, ceiling, gained) then 1.0 else
      var peak := BlockPeak(f, dets, gained);
      if peak > ceiling && peak > 0.0 then ceiling / peak else 1.0
  }

  /** The detectors a block leaves. */
  function Limited(f: Filter, ceiling: real, dets: seq<Detector>, gained: seq<real>): (r: seq<Detector>)
    requires f.Valid() && |dets| > 0
    ensures |r| == |dets|
  {
    var n, a := |gained| / |dets|, Attenuation(f, ceiling, dets, gained);
    seq(|dets|, c requires 0 <= c < |dets| =>
      if Screened(f, ceiling, gained) then Primed(dets[c], Channel(gained, |dets|, c)).Reset() else
        var d := Probed(f, dets, gained, n)[c];
        var breaches := BlockPeak(f, dets, gained) > ceiling && BlockPeak(f, dets, gained) > 0.0;
        Detector(if breaches then ScaledBy(d.window, a) else d.window, d.primed, 0.0))
  }

  // ---- soundness ---------------------------------------------------------------------------------

  /** The twelve samples ending at frame `e`, newest first. */
  function InnerWindow(xs: seq<real>, e: nat): Window
    requires TAPS <= e + 1 <= |xs|
  {
    seq(TAPS, j requires 0 <= j < TAPS => xs[e - j])
  }

  lemma {:induction false} SamplePeakCovers(s: seq<real>, n: nat, k: nat)
    requires k < n <= |s|
    ensures Abs(s[k]) <= SamplePeak(s, n)
  {
    if k == n - 1 {
    } else {
      SamplePeakCovers(s, n - 1, k);
    }
  }

  lemma {:induction false} MaxPeakCovers(dets: seq<Detector>, n: nat, c: nat)
    requires c < n <= |dets|
    ensures dets[c].peak <= MaxPeak(dets, n)
  {
    if c == n - 1 {
    } else {
      MaxPeakCovers(dets, n - 1, c);
    }
  }

  lemma InnerIsWithin(gained: seq<real>, channels: nat, c: nat, e: nat)
    requires c < channels && TAPS <= e + 1 <= |gained| / channels
    ensures Within(InnerWindow(Channel(gained, channels, c), e), SamplePeak(gained, |gained|))
  {
    var w := InnerWindow(Channel(gained, channels, c), e);
    forall j | 0 <= j < TAPS
      ensures Abs(w[j]) <= SamplePeak(gained, |gained|)
    {
      ChannelIndex(|gained|, channels, c, e - j);
      SamplePeakCovers(gained, |gained|, (e - j) * channels + c);
    }
  }

  lemma InnerIsMeasured(f: Filter, d: Detector, xs: seq<real>, e: nat)
    requires f.Valid() && d.Valid() && TAPS <= e + 1 <= |xs|
    ensures WindowPeak(f, InnerWindow(xs, e)) <= PushAll(f, d, xs).peak
  {
    PeakCoversWindow(f, d, xs, e);
    InnerIsHistory(d.window, xs, e);
    hide WindowPeak, PushAll, History, InnerWindow;
  }

  lemma InnerIsHistory(w: Window, xs: seq<real>, e: nat)
    requires TAPS <= e + 1 <= |xs|
    ensures History(w, xs[..e + 1]) == InnerWindow(xs, e)
  {}

  lemma DividedPeak(x: real, peak: real, ceiling: real)
    requires x <= peak && peak > 0.0 && ceiling >= 0.0
    ensures ceiling / peak >= 0.0 && Scale(x, ceiling / peak) <= ceiling
    ensures Scale(peak, ceiling / peak) == ceiling
  {}

  lemma UnitScale(w: seq<real>)
    ensures ScaledBy(w, 1.0) == w
  {}

  /** Whichever path a block takes, every filter window lying wholly inside it, once scaled
      by the attenuation, stays at or below the ceiling on all four phases. */
  lemma InnerWindowsMeetTheCeiling(f: Filter, ceiling: real, dets: seq<Detector>, gained: seq<real>, c: nat, e: nat)
    requires f.Valid() && ceiling >= 0.0 && c < |dets| && (forall i | 0 <= i < |dets| :: dets[i].Valid())
    requires TAPS <= e + 1 <= |gained| / |dets|
    ensures var a := Attenuation(f, ceiling, dets, gained);
            && 0.0 <= a <= 1.0
            && WindowPeak(f, ScaledBy(InnerWindow(Channel(gained, |dets|, c), e), a)) <= ceiling
  {
    hide WindowPeak, SamplePeak, MaxPeak, GainBound, PushAll;
    var xs := Channel(gained, |dets|, c);
    var w := InnerWindow(xs, e);
    UnitScale(w);
    if Screened(f, ceiling, gained) {
      ScreenedWindow(f, w, SamplePeak(gained, |gained|), gained, |dets|, c, e);
    } else {
      var n := |gained| / |dets|;
      var probed := Probed(f, dets, gained, n);
      assert xs[..n] == xs;
      InnerIsMeasured(f, dets[c].Reset(), xs, e);
      MaxPeakCovers(probed, |dets|, c);
      var peak := BlockPeak(f, dets, gained);
      if peak > ceiling && peak > 0.0 {
        DividedPeak(WindowPeak(f, w), peak, ceiling);
        AttenuationAtMostOne(ceiling, peak);
        ScaledPeak(f, w, ceiling / peak);
      }
    }
  }

  lemma ScaledPeak(f: Filter, w: Window, a: real)
    requires f.Valid() && a >= 0.0
    ensures WindowPeak(f, ScaledBy(w, a)) == Scale(WindowPeak(f, w), a)
  {
    PeakScales(f, w, a, OVERSAMPLE);
  }

  lemma ScreenedWindow(f: Filter, w: Window, m: real, gained: seq<real>, channels: nat, c: nat, e: nat)
    requires f.Valid() && c < channels && TAPS <= e + 1 <= |gained| / channels
    requires w == InnerWindow(Channel(gained, channels, c), e) && m == SamplePeak(gained, |gained|)
    ensures WindowPeak(f, w) <= Scale(m, GainBound(f, OVERSAMPLE))
  {
    InnerIsWithin(gained, channels, c, e);
    GainBoundHolds(f, w, m, OVERSAMPLE);
    ScaleSwaps(m, GainBound(f, OVERSAMPLE));
  }

  lemma AttenuationAtMostOne(ceiling: real, peak: real)
    requires 0.0 <= ceiling <= peak && peak > 0.0
    ensures ceiling / peak <= 1.0
  {}

  /** The left-over history is that of pushing the attenuated block exactly when the older
      samples a short block leaves showing were silent, or were rightly kept as they are:
      always for blocks of at least twelve frames. */
  lemma HistoryIsOfTheEmittedIff(f: Filter, ceiling: real, dets: seq<Detector>, gained: seq<real>, c: nat)
    requires f.Valid() && c < |dets| && dets[c].Valid()
    ensures var a, xs := Attenuation(f, ceiling, dets, gained), Channel(gained, |dets|, c);
            var kept := !Screened(f, ceiling, gained) && a == 1.0;
            Limited(f, ceiling, dets, gained)[c].window == PushAll(f, dets[c], ScaledBy(xs, a)).window
            <==> kept || forall j | 0 <= j < TAPS - |xs| :: dets[c].window[j] == 0.0
  {
    hide PushAll;
    var a, xs := Attenuation(f, ceiling, dets, gained), Channel(gained, |dets|, c);
    UnitScale(xs);
    SameWindowAfterReset(f, dets[c], xs);
    SameWindowAfterReset(f, dets[c], ScaledBy(xs, a));
    if Screened(f, ceiling, gained) {
      PrimingIsPushingIff(f, dets[c], xs);
    } else {
      var n := |gained| / |dets|;
      assert xs[..n] == xs;
      ScalingIsPushingScaledIff(f, dets[c].Reset(), xs, a);
      UnitScale(PushAll(f, dets[c].Reset(), xs).window);
    }
  }

  lemma SameWindowAfterReset(f: Filter, d: Detector, xs: seq<real>)
    requires f.Valid() && d.Valid()
    ensures PushAll(f, d.Reset(), xs).window == PushAll(f, d, xs).window
  {}

  /** Each block is measured on its own: the peaks the detectors hold have no part in what it gets,
      and none is left over. */
  lemma BlocksAreMeasuredAlone(f: Filter, ceiling: real, dets: seq<Detector>, others: seq<Detector>, gained: seq<real>, c: nat)
    requires f.Valid() && |dets| == |others| && c < |dets|
    requires forall i | 0 <= i < |dets| :: others[i] == dets[i].(peak := others[i].peak)
    ensures Attenuation(f, ceiling, others, gained) == Attenuation(f, ceiling, dets, gained)
    ensures Limited(f, ceiling, others, gained)[c] == Limited(f, ceiling, dets, gained)[c]
    ensures Limited(f, ceiling, dets, gained)[c].peak == 0.0
  {
    hide PushAll, MaxPeak, History, Screened;
    assert forall i | 0 <= i < |dets| :: others[i].Reset() == dets[i].Reset();
    assert Probed(f, others, gained, |gained| / |dets|) == Probed(f, dets, gained, |gained| / |dets|);
  }

  // ---- the makeup gain ---------------------------------------------------------------------------------

  const MAX_GAIN_DB: real := 24.0
  const MIN_GAIN_DB: real := -24.0
  const SMOOTHING: real := 0.15

  /** The gain one short-term reading asks for; gated silence asks for none. */
  function TargetGain(targetLufs: real, measured: Option<real>): (t: real)
    ensures MIN_GAIN_DB <= t <= MAX_GAIN_DB
  {
    match measured
    case None => 0.0
    case Some(m) =>
      var want := targetLufs - m;
      if want < MIN_GAIN_DB then MIN_GAIN_DB else if want > MAX_GAIN_DB then MAX_GAIN_DB else want
  }

  /** The one-pole step toward the target. */
  function Smoothed(gain: real, target: real): real {
    gain + (target - gain) * SMOOTHING
  }

  function GainAfter(targetLufs: real, gain: real, readings: seq<Option<real>>): real
    decreases |readings|
  {
    if readings == [] then gain
    else GainAfter(targetLufs, Smoothed(gain, TargetGain(targetLufs, readings[0])), readings[1..])
  }

  /** Whatever is measured, the applied gain never leaves its band. */
  lemma {:induction false} GainStaysInBand(targetLufs: real, gain: real, readings: seq<Option<real>>)
    requires MIN_GAIN_DB <= gain <= MAX_GAIN_DB
    ensures MIN_GAIN_DB <= GainAfter(targetLufs, gain, readings) <= MAX_GAIN_DB
    decreases |readings|
  {
    if readings == [] {
    } else {
      GainStaysInBand(targetLufs, Smoothed(gain, TargetGain(targetLufs, readings[0])), readings[1..]);
    }
  }

  lemma StepStaysInBand(gain: real, target: real)
    requires MIN_GAIN_DB <= gain <= MAX_GAIN_DB && MIN_GAIN_DB <= target <= MAX_GAIN_DB
    ensures MIN_GAIN_DB <= Smoothed(gain, target) <= MAX_GAIN_DB
  {}

  function Decay(n: nat): real {
    if n == 0 then 1.0 else 0.85 * Decay(n - 1)
  }

  /** A steady reading draws the gain to its target geometrically, without overshoot; gated
      silence draws it back to unity. */
  lemma {:induction false} GainConverges(targetLufs: real, gain: real, readings: seq<Option<real>>, m: Option<real>)
    requires forall i | 0 <= i < |readings| :: readings[i] == m
    ensures var t := TargetGain(targetLufs, m);
            GainAfter(targetLufs, gain, readings) - t == Decay(|readings|) * (gain - t)
    decreases |readings|
  {
    if readings == [] {
    } else {
      var t := TargetGain(targetLufs, m);
      GainConverges(targetLufs, Smoothed(gain, t), readings[1..], m);
      assert Smoothed(gain, t) - t == 0.85 * (gain - t);
      assert 0.85 * Decay(|readings| - 1) * (gain - t) == Decay(|readings| - 1) * (0.85 * (gain - t));
    }
  }

  /** A bus measured within reach of the target is brought to it: after any number of blocks
      at that reading, what the gain leaves it short by is the decayed initial shortfall. */
  lemma MakeupReachesTarget(targetLufs: real, gain: real, readings: seq<Option<real>>, m: real)
    requires MIN_GAIN_DB <= targetLufs - m <= MAX_GAIN_DB
    requires forall i | 0 <= i < |readings| :: readings[i] == Some(m)
    ensures m + GainAfter(targetLufs, gain, readings) - targetLufs == Decay(|readings|) * (m + gain - targetLufs)
  {
    GainConverges(targetLufs, gain, readings, Some(m));
    assert gain - (targetLufs - m) == m + gain - targetLufs;
  }

  // ---- the processor -----------------------------------------------------------------------------------

  class LoudnormProcessor<F> {
    const format: AudioFormat
    const targetLufs: real
    const ceilingDbtp: real
    /** Measures the bus before the gain. */
    const meter: Loudness.LoudnessMeter<F>
    const filter: Filter
    const limiters: seq<TruePeakDetector>
    const peakGainBound: real
    var gainDb: real

    function Windows(): set<array<real>> {
      set c | 0 <= c < |limiters| :: limiters[c].window
    }

    predicate Valid()
      reads limiters, Windows()
    {
      && filter.Valid() && |limiters| == format.Channels()
      && peakGainBound == GainBound(filter, OVERSAMPLE)
      && (forall c | 0 <= c < |limiters| :: limiters[c].Valid() && limiters[c].filter == filter)
      && (forall c, d | 0 <= c < d < |limiters| ::
           limiters[c] != limiters[d] && limiters[c].window != limiters[d].window)
    }

    function Views(): (v: seq<Detector>)
      requires Valid()
      reads limiters, Windows()
      ensures |v| == |limiters|
    {
      seq(|limiters|, c requires 0 <= c < |limiters| reads limiters, Windows() requires Valid() => limiters[c].View())
    }

    /** A normaliser at unity gain, a fresh meter, one fresh detector a channel, the gain bound
        cached. */
    constructor (format: AudioFormat, targetLufs: real, ceilingDbtp: real, filter: Filter,
                 weighting: Loudness.KWeight<F>, db: Loudness.Decibels)
      requires filter.Valid()
      ensures Valid() && this.format == format && this.targetLufs == targetLufs
      ensures this.ceilingDbtp == ceilingDbtp && this.filter == filter && gainDb == 0.0
      ensures fresh(meter) && meter.Valid() && meter.format == format && meter.db == db && meter.subblocks == []
      ensures forall c | 0 <= c < |limiters| :: limiters[c].View() == Detector(Silent(), 0, 0.0)
    {
      var detectors := FreshDetectors(filter, format.Channels());
      this.format, this.targetLufs := format, targetLufs;
      this.ceilingDbtp, this.filter, gainDb := ceilingDbtp, filter, 0.0;
      meter := new Loudness.LoudnessMeter<F>(format, weighting, db);
      limiters := detectors;
      var bound := detectors[0].PeakGainBound();
      peakGainBound := bound;
    }

    /** Primes every detector from its channel's tail. */
    method PrimeAll(gained: seq<real>)
      requires Valid()
      modifies limiters, Windows()
      ensures Valid()
      ensures forall c | 0 <= c < |limiters| ::
                limiters[c].View() == Primed(old(limiters[c].View()), Channel(gained, |limiters|, c)).Reset()
    {
      hide History;
      for c := 0 to |limiters|
        invariant Valid()
        invariant forall d | 0 <= d < |limiters| ::
                    limiters[d].View() ==
                    if d < c then Primed(old(limiters[d].View()), Channel(gained, |limiters|, d)).Reset()
                    else old(limiters[d].View())
      {
        limiters[c].PrimeTailInterleaved(gained, c, |limiters|);
        limiters[c].ResetPeak();
      }
    }

    method ResetAll()
      requires Valid()
      modifies limiters
      ensures Valid()
      ensures forall c | 0 <= c < |limiters| :: limiters[c].View() == old(limiters[c].View()).Reset()
    {
      for c := 0 to |limiters|
        invariant Valid()
        invariant forall d | 0 <= d < |limiters| ::
                    limiters[d].View() == if d < c then old(limiters[d].View()).Reset() else old(limiters[d].View())
      {
        limiters[c].ResetPeak();
      }
    }

    method ScaleAll(atten: real)
      requires Valid()
      modifies Windows()
      ensures Valid()
      ensures forall c | 0 <= c < |limiters| ::
                limiters[c].View() == old(limiters[c].View()).(window := ScaledBy(old(limiters[c].View()).window, atten))
    {
      hide ScaledBy;
      for c := 0 to |limiters|
        invariant Valid()
        invariant forall d | 0 <= d < |limiters| ::
                    limiters[d].View() ==
                    if d < c then old(limiters[d].View()).(window := ScaledBy(old(limiters[d].View()).window, atten))
                    else old(limiters[d].View())
      {
        limiters[c].ScaleHistory(atten);
      }
    }

    /** Pushes one frame through the detectors, keeping the loudest peak. */
    method PushFrame(frame: seq<real>, before: real) returns (peak: real)
      requires Valid() && |frame| == |limiters|
      requires before == MaxPeak(Views(), |limiters|)
      modifies limiters, Windows()
      ensures Valid()
      ensures forall c | 0 <= c < |limiters| :: limiters[c].View() == Pushed(filter, old(limiters[c].View()), frame[c])
      ensures peak == MaxPeak(Views(), |limiters|)
    {
      hide Pushed, MaxPeak;
      ghost var was := Views();
      peak := before;
      for c := 0 to |limiters|
        invariant Valid()
        invariant forall d | 0 <= d < |limiters| :: Views()[d] == if d < c then Pushed(filter, was[d], frame[d]) else was[d]
        invariant peak == MaxPeak(Views(), |limiters|)
      {
        peak := PushOne(c, frame[c], peak);
      }
    }

    method PushOne(c: nat, x: real, before: real) returns (peak: real)
      requires Valid() && c < |limiters| && before == MaxPeak(Views(), |limiters|)
      modifies limiters, Windows()
      ensures Valid()
      ensures Views() == old(Views())[c := Pushed(filter, old(Views())[c], x)]
      ensures peak == MaxPeak(Views(), |limiters|)
    {
      hide Pushed, MaxPeak;
      ghost var was := Views();
      PeakOnlyGrows(filter, limiters[c].View(), x);
      limiters[c].Push(x);
      assert Views() == was[c := limiters[c].View()];
      RaisedPeak(was, c, limiters[c].View());
      peak := if limiters[c].peak > before then limiters[c].peak else before;
    }

    /** One pass over the block: every detector has seen its channel, and `peak` is the
        loudest point of any. */
    method Measure(gained: seq<real>) returns (peak: real)
      requires Valid() && |gained| % |limiters| == 0
      requires forall c | 0 <= c < |limiters| :: limiters[c].peak == 0.0
      modifies limiters, Windows()
      ensures Valid()
      ensures forall c | 0 <= c < |limiters| ::
                Views()[c] == PushAll(filter, old(Views())[c], Channel(gained, |limiters|, c))
      ensures peak == MaxPeak(Views(), |limiters|)
    {
      hide Progress, MaxPeak;
      var frames := |gained| / |limiters|;
      ghost var was := Views();
      peak := 0.0;
      QuietPeaks(was, |limiters|);
      ProgressStarts(filter, was, gained);
      for n := 0 to frames
        invariant Valid()
        invariant Progress(filter, was, Views(), gained, n)
        invariant peak == MaxPeak(Views(), |limiters|)
      {
        peak := MeasureFrame(gained, n, peak, was);
      }
      ProgressEnds(filter, was, Views(), gained);
    }

    /** Frame `n` of the pass. */
    method MeasureFrame(gained: seq<real>, n: nat, before: real, ghost was: seq<Detector>) returns (peak: real)
      requires Valid() && |was| == |limiters| && n < |gained| / |limiters|
      requires Progress(filter, was, Views(), gained, n)
      requires before == MaxPeak(Views(), |limiters|)
      modifies limiters, Windows()
      ensures Valid()
      ensures Progress(filter, was, Views(), gained, n + 1)
      ensures peak == MaxPeak(Views(), |limiters|)
    {
      hide Pushed, PushAll, MaxPeak;
      var channels := |limiters|;
      FrameBounds(|gained|, channels, n);
      var frame := gained[n * channels..n * channels + channels];
      peak := PushFrame(frame, before);
      forall c | 0 <= c < channels
        ensures Views()[c] == PushAll(filter, was[c], Channel(gained, channels, c)[..n + 1])
      {
        NextPush(filter, was[c], Channel(gained, channels, c), n);
      }
    }

    /** The limiter: the pre-screen primes the seam, the exact path measures and folds the
        attenuation into the history. */
    method TruePeakLimit(gained: seq<real>) returns (atten: real)
      requires Valid() && |gained| % format.Channels() == 0
      modifies limiters, Windows()
      ensures Valid()
      ensures atten == Attenuation(filter, meter.db.Amplitude(ceilingDbtp), old(Views()), gained)
      ensures Views() == Limited(filter, meter.db.Amplitude(ceilingDbtp), old(Views()), gained)
    {
      hide Primed, PushAll, ScaledBy, SamplePeak, GainBound;
      ghost var was := Views();
      var ceiling := meter.db.Amplitude(ceilingDbtp);
      var samplePeak := LoudestSample(gained);
      if Scale(samplePeak, peakGainBound) <= ceiling {
        PrimeAll(gained);
        assert Views() == Limited(filter, ceiling, was, gained);
        return 1.0;
      }
      ResetAll();
      var peak := Measure(gained);
      ghost var probed := Views();
      ProbedAll(filter, was, gained, probed);
      var breaches := peak > ceiling && peak > 0.0;
      atten := if breaches then ceiling / peak else 1.0;
      if breaches {
        ScaleAll(atten);
      }
      ResetAll();
      assert Views() == Limited(filter, ceiling, was, gained);
    }

    /** Moves the applied gain one smoothing step toward what the reading asks for. */
    method StepGain(measured: Option<real>)
      requires MIN_GAIN_DB <= gainDb <= MAX_GAIN_DB
      modifies this`gainDb
      ensures gainDb == Smoothed(old(gainDb), TargetGain(targetLufs, measured)) && MIN_GAIN_DB <= gainDb <= MAX_GAIN_DB
    {
      StepStaysInBand(gainDb, TargetGain(targetLufs, measured));
      gainDb := gainDb + (TargetGain(targetLufs, measured) - gainDb) * SMOOTHING;
    }

    /** Meters one block and keeps only the history the short-term window needs. */
    method MeterBlock(samples: seq<real>) returns (measured: Option<real>)
      requires meter.Valid() && meter.format == format && |samples| % format.Channels() == 0
      modifies meter
      ensures meter.Valid()
      ensures meter.View() == Metered(meter.weighting, format, old(meter.View()), samples)
      ensures measured == Loudness.WindowLoudness(meter.db, meter.subblocks, Loudness.SUBBLOCKS_PER_SHORT_TERM)
    {
      var _ := meter.PushInterleaved(samples);
      meter.RetainRecent(Loudness.RETAIN_SUBBLOCKS);
      measured := meter.WindowReading(Loudness.SUBBLOCKS_PER_SHORT_TERM);
    }

    /** Normalises one block: meter it, step the gain toward what the short-term reading asks
        for, apply it, limit, clamp. */
    method Process(block: AudioBlock) returns (out: AudioBlock)
      requires Valid() && meter.Valid() && meter.format == format
      requires block.format == format && MIN_GAIN_DB <= gainDb <= MAX_GAIN_DB
      modifies this`gainDb, meter, limiters, Windows()
      ensures Valid() && meter.Valid() && out.format == format && |out.samples| == |block.samples|
      ensures meter.View() == Metered(meter.weighting, format, old(meter.View()), block.samples)
      ensures var reading := Loudness.WindowLoudness(meter.db, meter.subblocks, Loudness.SUBBLOCKS_PER_SHORT_TERM);
              gainDb == Smoothed(old(gainDb), TargetGain(targetLufs, reading)) && MIN_GAIN_DB <= gainDb <= MAX_GAIN_DB
      ensures var gained := ScaledBy(block.samples, meter.db.Amplitude(gainDb));
              var a := Attenuation(filter, meter.db.Amplitude(ceilingDbtp), old(Views()), gained);
              && (forall k | 0 <= k < |out.samples| :: out.samples[k] == ClampUnit(Scale(gained[k], a)))
              && Views() == Limited(filter, meter.db.Amplitude(ceilingDbtp), old(Views()), gained)
    {
      hide Attenuation, Limited, ScaledBy, TargetGain, Scale, Views, ClampUnit, Smoothed;
      hide Metered, Loudness.WindowLoudness;
      var measured := MeterBlock(block.samples);
      StepGain(measured);
      var gained := ScaledBy(block.samples, meter.db.Amplitude(gainDb));
      var limit := TruePeakLimit(gained);
      var samples := Clamped(gained, limit);
      out := PcmData(format, samples);
    }
  }

  /** The meter after a block and the retention that follows it. */
  function Metered<F>(k: Loudness.KWeight<F>, format: AudioFormat, m: Loudness.Meter<F>, samples: seq<real>): Loudness.Meter<F>
    requires |m.filters| == format.Channels()
  {
    var pushed := Loudness.PushedAll(k, format, m, samples, |samples| / format.Channels());
    pushed.(subblocks := Loudness.Recent(pushed.subblocks, Loudness.RETAIN_SUBBLOCKS))
  }

  method Clamped(gained: seq<real>, limit: real) returns (samples: seq<real>)
    ensures |samples| == |gained|
    ensures forall k | 0 <= k < |samples| :: samples[k] == ClampUnit(Scale(gained[k], limit))
  {
    var a := new real[|gained|](_ => 0.0);
    for k := 0 to |gained|
      invariant forall i | 0 <= i < k :: a[i] == ClampUnit(Scale(gained[i], limit))
    {
      a[k] := ClampUnit(Scale(gained[k], limit));
    }
    samples := a[..];
  }

  method FreshDetectors(filter: Filter, n: nat) returns (dets: seq<TruePeakDetector>)
    requires filter.Valid()
    ensures |dets| == n
    ensures forall c | 0 <= c < n ::
              && fresh(dets[c]) && fresh(dets[c].window) && dets[c].Valid() && dets[c].filter == filter
              && dets[c].View() == Detector(Silent(), 0, 0.0)
    ensures forall c, d | 0 <= c < d < n :: dets[c] != dets[d] && dets[c].window != dets[d].window
  {
    dets := [];
    for i := 0 to n
      invariant |dets| == i
      invariant forall c | 0 <= c < i ::
                  && fresh(dets[c]) && fresh(dets[c].window) && dets[c].Valid() && dets[c].filter == filter
                  && dets[c].View() == Detector(Silent(), 0, 0.0)
      invariant forall c, d | 0 <= c < d < i :: dets[c] != dets[d] && dets[c].window != dets[d].window
    {
      var det := new TruePeakDetector(filter);
      dets := dets + [det];
    }
  }

  method LoudestSample(s: seq<real>) returns (m: real)
    ensures m == SamplePeak(s, |s|)
  {
    m := 0.0;
    for k := 0 to |s|
      invariant m == SamplePeak(s, k)
    {
      m := Greater(m, Abs(s[k]));
    }
  }

  lemma PeakOnlyGrows(f: Filter, d: Detector, x: real)
    requires f.Valid()
    ensures Pushed(f, d, x).peak >= d.peak
  {}

  /** Raising one detector's peak raises the loudest to it, if at all. */
  lemma {:induction false} RaisedPeakUpTo(dets: seq<Detector>, c: nat, d: Detector, n: nat)
    requires c < |dets| && n <= |dets| && d.peak >= dets[c].peak
    ensures MaxPeak(dets[c := d], n) == if c < n then Greater(MaxPeak(dets, n), d.peak) else MaxPeak(dets, n)
  {
    if n == 0 {
    } else {
      RaisedPeakUpTo(dets, c, d, n - 1);
    }
  }

  lemma RaisedPeak(dets: seq<Detector>, c: nat, d: Detector)
    requires c < |dets| && d.peak >= dets[c].peak
    ensures MaxPeak(dets[c := d], |dets|) == Greater(MaxPeak(dets, |dets|), d.peak)
  {
    RaisedPeakUpTo(dets, c, d, |dets|);
  }

  lemma {:induction false} QuietPeaks(dets: seq<Detector>, n: nat)
    requires n <= |dets| && forall c | 0 <= c < |dets| :: dets[c].peak == 0.0
    ensures MaxPeak(dets, n) == 0.0
  {
    if n == 0 {
    } else {
      QuietPeaks(dets, n - 1);
    }
  }

  lemma NextPush(f: Filter, d: Detector, xs: seq<real>, n: nat)
    requires f.Valid() && n < |xs|
    ensures PushAll(f, d, xs[..n + 1]) == Pushed(f, PushAll(f, d, xs[..n]), xs[n])
  {
    assert xs[..n + 1][..n] == xs[..n];
  }

  /** Every detector has taken the first `n` samples of its channel. */
  ghost predicate Progress(f: Filter, was: seq<Detector>, now: seq<Detector>, gained: seq<real>, n: nat)
    requires f.Valid() && |was| > 0 && n <= |gained| / |was|
  {
    |now| == |was| && forall c | 0 <= c < |was| :: now[c] == PushAll(f, was[c], Channel(gained, |was|, c)[..n])
  }

  lemma ProgressStarts(f: Filter, was: seq<Detector>, gained: seq<real>)
    requires f.Valid() && |was| > 0
    ensures Progress(f, was, was, gained, 0)
  {}

  lemma ProgressEnds(f: Filter, was: seq<Detector>, now: seq<Detector>, gained: seq<real>)
    requires f.Valid() && |was| > 0 && Progress(f, was, now, gained, |gained| / |was|)
    ensures |now| == |was| && forall c | 0 <= c < |was| :: now[c] == PushAll(f, was[c], Channel(gained, |was|, c))
  {
    hide PushAll;
    assert forall c | 0 <= c < |was| :: Channel(gained, |was|, c)[..|gained| / |was|] == Channel(gained, |was|, c);
  }

  lemma ProbedAll(f: Filter, dets: seq<Detector>, gained: seq<real>, after: seq<Detector>)
    requires f.Valid() && |dets| > 0 && |after| == |dets|
    requires forall c | 0 <= c < |dets| :: after[c] == PushAll(f, dets[c].Reset(), Channel(gained, |dets|, c))
    ensures after == Probed(f, dets, gained, |gained| / |dets|)
  {
    hide PushAll;
    var n := |gained| / |dets|;
    assert forall c | 0 <= c < |dets| :: Channel(gained, |dets|, c)[..n] == Channel(gained, |dets|, c);
  }
}
