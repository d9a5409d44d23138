/** Priming a loop deck: the exact frame-to-sample map, the refuse-don't-clamp window
    rules, and the correlation-adaptive seam. */
module DeckBuild {
  import opened Audio
  import DeckTheorems
  import opened Mixer
  import opened LoopDeck

  // ---- frames to samples ---------------------------------------------------------------

  /** The 48 kHz sample index of asset frame `frame` at `num / den` frames a second, rounded
      to nearest; none for a cadence that is not positive. */
  function FrameToSample(frame: nat, num: int, den: int): Option<nat> {
    if num <= 0 || den <= 0 then None else
      ScaleMono(0, den, frame * SAMPLE_RATE);
      Some(Rounded(frame * SAMPLE_RATE * den, num))
  }

  /** The driver's own copy of the map: a cadence that is not positive gives zero. */
  function FramesToSamples(frames: nat, num: int, den: int): nat {
    match FrameToSample(frames, num, den)
    case None => 0
    case Some(s) => s
  }

  /** `numer / denom` to nearest, halves up. */
  function Rounded(numer: nat, denom: nat): nat
    requires denom > 0
  {
    (numer + denom / 2) / denom
  }

  /** A media time in nanoseconds as a 48 kHz frame index; negative times are frame zero. */
  function MediaTimeToAudioFrame(ns: int): nat {
    Max(ns, 0) * SAMPLE_RATE / 1_000_000_000
  }

  /** The frame of a media time is the last one not after it; times before zero are frame
      zero. */
  lemma MediaTimeIsFloor(ns: int, later: int)
    requires ns <= later
    ensures var f := MediaTimeToAudioFrame(ns);
            && (ns >= 0 ==> f * 1_000_000_000 <= ns * SAMPLE_RATE < (f + 1) * 1_000_000_000)
            && (ns <= 0 ==> f == 0)
            && f <= MediaTimeToAudioFrame(later)
  {}

  lemma RoundedIsNearest(numer: nat, denom: nat)
    requires denom > 0
    ensures var r := Rounded(numer, denom); -(denom as int) <= 2 * (r * denom - numer) <= denom
  {}

  lemma RoundedIsMonotone(a: nat, b: nat, denom: nat)
    requires a <= b && denom > 0
    ensures Rounded(a, denom) <= Rounded(b, denom)
  {
    var x, y := a + denom / 2, b + denom / 2;
    assert x == (x / denom) * denom + x % denom && y == (y / denom) * denom + y % denom;
    if x / denom > y / denom {
      Distribute(y / denom, 1, denom);
      ScaleMono(y / denom + 1, x / denom, denom);
    }
  }

  /** Frame-to-sample is monotone and within half a sample of the exact instant. */
  lemma FrameToSampleIsExact(frame: nat, later: nat, num: int, den: int)
    requires num > 0 && den > 0 && frame <= later
    ensures FrameToSample(frame, num, den).Some? && FrameToSample(later, num, den).Some?
    ensures FrameToSample(frame, num, den).value <= FrameToSample(later, num, den).value
    ensures var s := FrameToSample(frame, num, den).value;
            -num <= 2 * (s * num - frame * SAMPLE_RATE * den) <= num
  {
    ScaleMono(0, den, frame * SAMPLE_RATE);
    ScaleMono(frame * SAMPLE_RATE, later * SAMPLE_RATE, den);
    RoundedIsMonotone(frame * SAMPLE_RATE * den, later * SAMPLE_RATE * den, num);
    RoundedIsNearest(frame * SAMPLE_RATE * den, num);
  }

  /** Rounding the window's length (the audio driver) and differencing its rounded ends (the
      whole-clip path) disagree by at most one sample. */
  lemma WindowLengthsAgree(from: nat, to: nat, num: int, den: int)
    requires num > 0 && den > 0 && from <= to
    ensures var whole := FramesToSamples(to - from, num, den);
            var ends := FramesToSamples(to, num, den) - FramesToSamples(from, num, den);
            whole - 1 <= ends <= whole + 1
  {
    var a, b := from * SAMPLE_RATE * den, to * SAMPLE_RATE * den;
    ScaleMono(0, den, from * SAMPLE_RATE);
    ScaleMono(from * SAMPLE_RATE, to * SAMPLE_RATE, den);
    Distribute(to * SAMPLE_RATE, from * SAMPLE_RATE, den);
    RoundedDifference(a, b, num);
  }

  lemma RoundedDifference(a: nat, b: nat, denom: nat)
    requires denom > 0 && a <= b
    ensures var whole, ends := Rounded(b - a, denom), Rounded(b, denom) - Rounded(a, denom);
            whole - 1 <= ends <= whole + 1
  {
    RoundedIsNearest(a, denom);
    RoundedIsNearest(b, denom);
    RoundedIsNearest(b - a, denom);
    NearestGap(Rounded(a, denom), Rounded(b, denom), Rounded(b - a, denom), a, b, denom);
  }

  lemma NearestGap(x: int, y: int, w: int, a: int, b: int, d: int)
    requires d > 0
    requires -d <= 2 * (x * d - a) <= d && -d <= 2 * (y * d - b) <= d && -d <= 2 * (w * d - (b - a)) <= d
    ensures -1 <= y - x - w <= 1
  {
    var gap := y - x - w;
    Distribute(y, x, d);
    Distribute(y - x, w, d);
    assert -3 * d <= 2 * (gap * d) <= 3 * d;
    if gap >= 2 {
      ScaleMono(2, gap, d);
    } else if gap <= -2 {
      ScaleMono(gap, -2, d);
    }
  }

  // ---- the seam ----------------------------------------------------------------------

  /** Whether the two seam legs are decorrelated; a leg of no energy counts as such. */
  predicate Decorrelated(math: SeamMath, head: seq<real>, tail: seq<real>) {
    var n := if |head| <= |tail| then |head| else |tail|;
    var eh, et := Dot(head, head, n), Dot(tail, tail, n);
    eh <= EPSILON || et <= EPSILON || Correlation(math, Dot(head, tail, n), eh, et) < CORRELATION_THRESHOLD
  }

  function Correlation(math: SeamMath, dot: real, eh: real, et: real): real {
    var scale := math.sqrt(eh) * math.sqrt(et);
    if scale == 0.0 then 0.0 else dot / scale
  }

  /** The phase of the hand-over at seam frame `m`, as it is computed. */
  function SeamPhase(m: nat, xfade: nat): real {
    (Ratio(m, xfade) * 2.0 + 1.0) / 2.0
  }

  /** The angle of seam frame `m`: inside the first quarter turn in the first half of the seam,
      inside the second quarter in the rest. */
  function SeamAngle(trig: Trig, m: nat, xfade: nat): real {
    Scale(SeamPhase(m, xfade), trig.halfPi)
  }

  /** The tail's and the head's gains at seam frame `m`. */
  function SeamGains(trig: Trig, decorrelated: bool, m: nat, xfade: nat): (real, real)
    requires m < xfade
  {
    if decorrelated then (trig.cos(SeamAngle(trig, m, xfade)), trig.sin(SeamAngle(trig, m, xfade)))
    else (1.0 - SeamPhase(m, xfade), SeamPhase(m, xfade))
  }

  /** Seam sample `m` of the crossfade between `tail` (fading out) and `head` (fading in). */
  function SeamSample(trig: Trig, decorrelated: bool, m: nat, xfade: nat, tail: real, head: real): real
    requires m < xfade
  {
    var (gt, gh) := SeamGains(trig, decorrelated, m, xfade);
    ClampUnit(Scale(gt, tail) + Scale(gh, head))
  }

  /** The fade-out leg: the content decoded past the loop point, or the wrapped head when
      less than a whole crossfade of it was decoded. */
  function TailLeg(decoded: seq<real>, loopSamples: nat, span: nat, head: seq<real>): seq<real> {
    if loopSamples + span <= |decoded| then decoded[loopSamples..loopSamples + span] else head
  }

  method IsDecorrelated(math: SeamMath, head: seq<real>, tail: seq<real>) returns (r: bool)
    ensures r == Decorrelated(math, head, tail)
  {
    var n := if |head| <= |tail| then |head| else |tail|;
    var dot, eh, et := 0.0, 0.0, 0.0;
    for i := 0 to n
      invariant dot == Dot(head, tail, i) && eh == Dot(head, head, i) && et == Dot(tail, tail, i)
    {
      dot := dot + head[i] * tail[i];
      eh := eh + head[i] * head[i];
      et := et + tail[i] * tail[i];
    }
    if eh <= EPSILON || et <= EPSILON {
      return true;
    }
    return Correlation(math, dot, eh, et) < CORRELATION_THRESHOLD;
  }

  method BuildSeam(math: SeamMath, decoded: seq<real>, body: seq<real>, loopFrames: nat, xfade: nat, channels: nat)
    returns (seam: seq<real>)
    requires channels > 0 && xfade <= loopFrames && |body| == loopFrames * channels <= |decoded|
    ensures |seam| == xfade * channels <= |body|
    ensures var head := body[..|seam|];
            var tail := TailLeg(decoded, |body|, |seam|, head);
            && |tail| == |seam|
            && forall k | 0 <= k < |seam| :: k / channels < xfade &&
                 seam[k] == SeamSample(math.trig, Decorrelated(math, head, tail), k / channels, xfade, tail[k], head[k])
  {
    hide SeamSample, Decorrelated;
    ScaleMono(xfade, loopFrames, channels);
    var span := xfade * channels;
    var head := body[..span];
    var tail := TailLeg(decoded, |body|, span, head);
    var decorrelated := IsDecorrelated(math, head, tail);
    seam := FillSeam(math.trig, decorrelated, xfade, channels, tail, head);
    forall k | 0 <= k < span
      ensures k / channels < xfade
    {
      FrameOf(k, xfade, channels);
    }
  }

  /** Sample `k` of a seam: its frame's gains over the two legs. */
  function SeamCell(trig: Trig, decorrelated: bool, xfade: nat, channels: nat, tail: seq<real>, head: seq<real>, k: nat): real
    requires channels > 0 && k < |tail| == |head|
  {
    if k / channels < xfade then SeamSample(trig, decorrelated, k / channels, xfade, tail[k], head[k]) else 0.0
  }

  /** The seam loop, frame by frame. */
  method FillSeam(trig: Trig, decorrelated: bool, xfade: nat, channels: nat, tail: seq<real>, head: seq<real>)
    returns (seam: seq<real>)
    requires channels > 0 && |tail| == |head| == xfade * channels
    ensures |seam| == |head|
    ensures forall k | 0 <= k < |seam| :: seam[k] == SeamCell(trig, decorrelated, xfade, channels, tail, head, k)
  {
    hide SeamCell, SeamSample;
    var out := new real[|head|](_ => 0.0);
    for m := 0 to xfade
      invariant forall k | 0 <= k < m * channels && k < |head| ::
                  out[k] == SeamCell(trig, decorrelated, xfade, channels, tail, head, k)
    {
      Distribute(m, 1, channels);
      ScaleMono(m + 1, xfade, channels);
      ScaleMono(0, m, channels);
      FillSeamFrame(trig, decorrelated, m, xfade, m * channels, channels, tail, head, out);
      CellsOfFrame(trig, decorrelated, m, xfade, channels, tail, head);
    }
    seam := out[..];
  }

  lemma CellsOfFrame(trig: Trig, decorrelated: bool, m: nat, xfade: nat, channels: nat, tail: seq<real>, head: seq<real>)
    requires channels > 0 && m < xfade && |tail| == |head| == xfade * channels
    ensures forall k | 0 <= k < |head| && m * channels <= k < m * channels + channels ::
              SeamCell(trig, decorrelated, xfade, channels, tail, head, k) == SeamSample(trig, decorrelated, m, xfade, tail[k], head[k])
  {
    forall k | 0 <= k < |head| && m * channels <= k < m * channels + channels
      ensures k / channels == m
    {
      QuotientUnique(k, channels, m, k - m * channels);
    }
  }

  /** One seam frame, from sample `off` on. */
  method FillSeamFrame(trig: Trig, decorrelated: bool, m: nat, xfade: nat, off: nat, channels: nat,
                       tail: seq<real>, head: seq<real>, out: array<real>)
    requires m < xfade && off + channels <= out.Length == |tail| == |head|
    modifies out
    ensures forall k | 0 <= k < out.Length ::
              out[k] == if off <= k < off + channels
                        then SeamSample(trig, decorrelated, m, xfade, tail[k], head[k]) else old(out[k])
  {
    for c := 0 to channels
      invariant forall k | 0 <= k < out.Length ::
                  out[k] == if off <= k < off + c
                            then SeamSample(trig, decorrelated, m, xfade, tail[k], head[k]) else old(out[k])
    {
      out[off + c] := SeamSample(trig, decorrelated, m, xfade, tail[off + c], head[off + c]);
    }
  }

  /** Both laws hold a level: the linear gains sum to one, the equal-power ones to one in
      power. */
  lemma SeamGainsHoldLevel(trig: Trig, decorrelated: bool, m: nat, xfade: nat)
    requires m < xfade && trig.Pythagorean()
    ensures var (gt, gh) := SeamGains(trig, decorrelated, m, xfade);
            if decorrelated then gt * gt + gh * gh == 1.0 else gt + gh == 1.0
  {}

  /** The phase the design asks of seam frame `m`: the tail all but alone at the first frame,
      the head at the last. */
  function Centred(m: nat, xfade: nat): real
    requires xfade > 0
  {
    (m as real + 0.5) / xfade as real
  }

  /** The phase computed is the centred one exactly when the crossfade is a single frame:
      for any longer one it starts half-way through the hand-over. */
  lemma SeamPhaseIsCentredIff(xfade: nat)
    requires 0 < xfade <= MAX_U32
    ensures (forall m: nat | m < xfade :: SeamPhase(m, xfade) == Centred(m, xfade)) <==> xfade == 1
    ensures SeamPhase(0, xfade) == 0.5
  {
    var n := xfade as real;
    assert Ratio(0, xfade) == 0.0;
    assert SeamPhase(0, xfade) == 0.5 && Centred(0, xfade) == 0.5 / n;
    if xfade > 1 {
      HalfOver(n);
    }
  }

  lemma HalfOver(n: real)
    requires n > 1.0
    ensures 0.5 / n < 0.5
  {}

  /** So the linear law keeps both legs between silence and full gain exactly in the first
      half of the seam; past it the tail is inverted and the head over-driven. */
  lemma LinearSeamStaysInRangeIff(trig: Trig, m: nat, xfade: nat)
    requires m < xfade <= MAX_U32
    ensures var (gt, gh) := SeamGains(trig, false, m, xfade);
            && gt == 0.5 - Ratio(m, xfade)
            && (0.0 <= gt <= 1.0 && 0.0 <= gh <= 1.0 <==> 2 * m <= xfade)
  {
    RatioGrows(0, m, xfade);
    HalfRatio(m as real, xfade as real);
  }

  lemma HalfRatio(x: real, d: real)
    requires d > 0.0
    ensures x / d <= 0.5 <==> 2.0 * x <= d
  {
    var q := x / d;
    assert q * d == x;
    if q <= 0.5 {
      ScaleGrows(q, 0.5, d);
    } else {
      ScaleGrows(0.5, q, d);
      assert (q - 0.5) * d > 0.0;
    }
  }

  lemma SeamAngleGrows(trig: Trig, m: nat, n: nat, xfade: nat)
    requires trig.halfPi > 0.0 && m <= n < xfade <= MAX_U32
    ensures 0.0 < SeamAngle(trig, m, xfade) <= SeamAngle(trig, n, xfade) <= 2.0 * trig.halfPi
    ensures 2 * n < xfade <==> SeamAngle(trig, n, xfade) < trig.halfPi
    ensures 2 * n == xfade <==> SeamAngle(trig, n, xfade) == trig.halfPi
  {
    RatioGrows(m, n, xfade);
    HalfRatio(n as real, xfade as real);
    HalfRatioExactly(n as real, xfade as real);
    hide Ratio;
    var p, q, h := SeamPhase(m, xfade), SeamPhase(n, xfade), trig.halfPi;
    ScaleGrows(0.5, p, h);
    ScaleGrows(p, q, h);
    ScaleGrows(q, 1.5, h);
    ScaleExactly(q, 1.0, h);
  }

  lemma HalfRatioExactly(x: real, d: real)
    requires d > 0.0
    ensures x / d == 0.5 <==> 2.0 * x == d
  {
    var q := x / d;
    assert q * d == x;
  }

  lemma ScaleExactly(a: real, b: real, x: real)
    requires x > 0.0
    ensures Scale(a, x) == Scale(b, x) <==> a == b
    ensures Scale(a, x) < Scale(b, x) <==> a < b
    ensures b == 1.0 ==> Scale(b, x) == x
  {
    ScaleSums(a, b, x);
    if a < b {
      assert (b - a) * x > 0.0;
    } else if a > b {
      assert (a - b) * x > 0.0;
    }
  }

  /** Through the seam the tail only falls.  The head only rises under the linear law; under
      the equal-power one it rises to the middle and falls back from there. */
  lemma SeamHandsOver(trig: Trig, decorrelated: bool, m: nat, n: nat, xfade: nat)
    requires trig.Quarter() && trig.Reflects() && m <= n < xfade <= MAX_U32
    ensures var (gt, gh) := SeamGains(trig, decorrelated, m, xfade);
            var (gt', gh') := SeamGains(trig, decorrelated, n, xfade);
            && gt >= gt'
            && (!decorrelated || 2 * n <= xfade ==> gh <= gh')
            && (decorrelated && 2 * m >= xfade ==> gh >= gh')
  {
    hide SeamPhase;
    GainsOfAngle(trig, decorrelated, m, xfade);
    GainsOfAngle(trig, decorrelated, n, xfade);
    if decorrelated {
      hide SeamAngle, SeamGains;
      SeamAngleGrows(trig, m, n, xfade);
      SeamAngleGrows(trig, m, m, xfade);
      TurnFalls(trig, SeamAngle(trig, m, xfade), SeamAngle(trig, n, xfade));
    } else {
      hide SeamAngle, SeamGains;
      PhaseClimbs(m, n, xfade);
    }
  }

  lemma GainsOfAngle(trig: Trig, decorrelated: bool, m: nat, xfade: nat)
    requires m < xfade
    ensures SeamGains(trig, decorrelated, m, xfade)
            == if decorrelated then (trig.cos(SeamAngle(trig, m, xfade)), trig.sin(SeamAngle(trig, m, xfade)))
               else (1.0 - SeamPhase(m, xfade), SeamPhase(m, xfade))
  {}

  lemma PhaseClimbs(m: nat, n: nat, xfade: nat)
    requires m <= n < xfade
    ensures SeamPhase(m, xfade) <= SeamPhase(n, xfade)
  {
    RatioGrows(m, n, xfade);
  }

  /** Cosine falls over the half turn; sine climbs over its first quarter and falls over the
      second. */
  lemma TurnFalls(trig: Trig, x: real, y: real)
    requires trig.Quarter() && trig.Reflects() && 0.0 <= x <= y <= 2.0 * trig.halfPi
    ensures trig.cos(x) >= trig.cos(y)
    ensures y <= trig.halfPi ==> trig.sin(x) <= trig.sin(y)
    ensures x >= trig.halfPi ==> trig.sin(x) >= trig.sin(y)
  {
    var h := trig.halfPi;
    if y <= h {
      QuarterBounds(trig, x, y);
    } else if x >= h {
      QuarterBounds(trig, x - h, y - h);
      assert x == h + (x - h) && y == h + (y - h);
    } else {
      QuarterBounds(trig, x, x);
      QuarterBounds(trig, y - h, y - h);
      assert y == h + (y - h);
    }
  }

  /** A loop decoded right up to the clip's end crossfades with its own head, and the seam is
      then exactly that head: the wrap is transparent, unless the head is so quiet that it
      counts as energyless. */
  lemma SelfSeamIsTransparent(math: SeamMath, head: seq<real>, m: nat, xfade: nat, h: real)
    requires math.Lawful() && m < xfade && -1.0 <= h <= 1.0
    requires Dot(head, head, |head|) > EPSILON
    ensures !Decorrelated(math, head, head)
    ensures SeamSample(math.trig, Decorrelated(math, head, head), m, xfade, h, h) == h
  {
    var e := Dot(head, head, |head|);
    assert math.sqrt(e) * math.sqrt(e) == e;
    assert e > 0.0;
    SelfRatio(e);
    assert Correlation(math, e, e, e) == 1.0;
    var p := SeamPhase(m, xfade);
    assert (1.0 - p) * h + p * h == h;
  }

  /** At seam frame `m` a seam of the head with itself gives the head back exactly when the head
      counts as having energy, or the sample is silent, or the frame is the very middle: an
      energyless head is blended at equal power, too loud before the middle and too soft after
      it. */
  lemma SelfSeamIsTransparentIff(math: SeamMath, head: seq<real>, m: nat, xfade: nat, h: real)
    requires math.Lawful() && math.trig.Quarter() && math.trig.Reflects()
    requires m < xfade <= MAX_U32 && -1.0 < h < 1.0
    ensures SeamSample(math.trig, Decorrelated(math, head, head), m, xfade, h, h) == h
            <==> Dot(head, head, |head|) > EPSILON || h == 0.0 || 2 * m == xfade
  {
    if Dot(head, head, |head|) > EPSILON {
      SelfSeamIsTransparent(math, head, m, xfade, h);
    } else {
      hide Dot;
      assert Decorrelated(math, head, head);
      EqualPowerSum(math.trig, m, xfade);
      var (gt, gh) := SeamGains(math.trig, true, m, xfade);
      ScaleSums(gt, gh, h);
      assert SeamSample(math.trig, true, m, xfade, h, h) == ClampUnit(Scale(gt + gh, h));
      OnlyUnityKeeps(gt + gh, h);
    }
  }

  /** The two equal-power gains add up to more than one before the middle, to one at it, and to
      less after it. */
  lemma EqualPowerSum(trig: Trig, m: nat, xfade: nat)
    requires trig.Pythagorean() && trig.Quarter() && trig.Reflects() && m < xfade <= MAX_U32
    ensures var (gt, gh) := SeamGains(trig, true, m, xfade);
            gt + gh >= -1.0 && (gt + gh == 1.0 <==> 2 * m == xfade)
  {
    SeamAngleGrows(trig, m, m, xfade);
    hide SeamPhase, SeamAngle;
    TurnSum(trig, SeamAngle(trig, m, xfade));
  }

  /** Within the half turn sine and cosine add up to one only at the quarter. */
  lemma TurnSum(trig: Trig, x: real)
    requires trig.Pythagorean() && trig.Quarter() && trig.Reflects() && 0.0 < x <= 2.0 * trig.halfPi
    ensures trig.cos(x) + trig.sin(x) >= -1.0
    ensures trig.cos(x) + trig.sin(x) == 1.0 <==> x == trig.halfPi
  {
    hide Trig.Pythagorean;
    var h := trig.halfPi;
    if x < h {
      assert trig.sin(x) > 0.0 && trig.cos(x) > 0.0;
      hide Trig.Quarter, Trig.Reflects;
      PythagorasAt(trig, x);
      SumExceedsOne(trig.sin(x), trig.cos(x));
    } else if x > h {
      assert x == h + (x - h);
      QuarterBounds(trig, x - h, x - h);
      assert trig.sin(x - h) > 0.0;
    }
  }

  lemma PythagorasAt(trig: Trig, x: real)
    requires trig.Pythagorean()
    ensures trig.sin(x) * trig.sin(x) + trig.cos(x) * trig.cos(x) == 1.0
  {}

  lemma SumExceedsOne(s: real, c: real)
    requires s > 0.0 && c > 0.0 && s * s + c * c == 1.0
    ensures s + c > 1.0
  {
    assert s * c > 0.0;
    assert (s + c) * (s + c) == 1.0 + 2.0 * (s * c);
    if s + c <= 1.0 {
      SquareStays(s + c);
      assert false;
    }
  }

  lemma SquareStays(x: real)
    requires 0.0 <= x <= 1.0
    ensures x * x <= 1.0
  {
    ScaleGrows(x, 1.0, x);
  }

  lemma OnlyUnityKeeps(g: real, h: real)
    requires g >= -1.0 && -1.0 < h < 1.0
    ensures ClampUnit(Scale(g, h)) == h <==> g == 1.0 || h == 0.0
  {
    if h != 0.0 && g != 1.0 {
      assert (g - 1.0) * h != 0.0;
    }
  }

  lemma SelfRatio(e: real)
    requires e > 0.0
    ensures e / e == 1.0
  {}

  // ---- windows -------------------------------------------------------------------------

  datatype Primed = Ready(tape: Tape) | Ragged(samples: nat, channels: nat)

  /** A tape over `decoded`: its first `loopFrames` frames, seamed with what follows them. */
  predicate Records(math: SeamMath, t: Tape, format: AudioFormat, decoded: seq<real>, loopFrames: nat, xfade: nat) {
    && t.Sound() && t.format == format && t.loopFrames == loopFrames
    && t.xfade == Min(xfade, loopFrames / 2)
    && t.body == decoded[..Min(|t.body|, |decoded|)] && |t.body| <= |decoded|
    && |t.seam| <= |t.body|
    && var head := t.body[..|t.seam|];
       var tail := TailLeg(decoded, |t.body|, |t.seam|, head);
       |tail| == |t.seam| && forall k | 0 <= k < |t.seam| ::
         k / format.Channels() < t.xfade
         && t.seam[k] == SeamSample(math.trig, Decorrelated(math, head, tail), k / format.Channels(), t.xfade, tail[k], head[k])
  }

  method WithSegment(math: SeamMath, format: AudioFormat, decoded: seq<real>, loopFrames: nat, xfadeFrames: nat)
    returns (r: Primed)
    ensures |decoded| % format.Channels() != 0 || |decoded| / format.Channels() < loopFrames
            <==> r == Ragged(|decoded|, format.Channels())
    ensures r.Ragged? ==> r == Ragged(|decoded|, format.Channels())
    ensures r.Ready? ==> if loopFrames == 0 then r.tape == EmptyTape(format)
                         else Records(math, r.tape, format, decoded, loopFrames, xfadeFrames)
  {
    var channels := format.Channels();
    if |decoded| % channels != 0 || |decoded| / channels < loopFrames {
      return Ragged(|decoded|, channels);
    }
    if loopFrames == 0 {
      return Ready(EmptyTape(format));
    }
    var xfade := Min(xfadeFrames, loopFrames / 2);
    FrameCount(|decoded|, channels);
    ScaleMono(loopFrames, |decoded| / channels, channels);
    var body := decoded[..loopFrames * channels];
    var seam := BuildSeam(math, decoded, body, loopFrames, xfade, channels);
    return Ready(Tape(format, body, seam, loopFrames, xfade));
  }

  /** The window rule both priming paths share: a window short by more than the tolerance is
      refused (silent tape), a smaller shortfall is padded with silence, and the loop is
      never shortened. */
  function Padded(window: seq<real>, samples: nat): (r: seq<real>)
    ensures |r| == Max(|window|, samples)
  {
    window + Zeros(Max(samples - |window|, 0))
  }

  method FromWindow(math: SeamMath, format: AudioFormat, window: seq<real>, loopFrames: nat, xfadeFrames: nat)
    returns (t: Tape)
    ensures t.Sound() && t.format == format
    ensures t.loopFrames == 0 || t.loopFrames == loopFrames
    ensures var channels := format.Channels();
            var refused := |window| / channels + SHORTFALL_TOLERANCE_FRAMES < loopFrames;
            var ragged := |window| % channels != 0 && |window| >= loopFrames * channels;
            if loopFrames == 0 || refused || ragged then t == EmptyTape(format)
            else Records(math, t, format, Padded(window, loopFrames * channels), loopFrames, xfadeFrames)
  {
    var channels := format.Channels();
    if loopFrames == 0 || |window| / channels + SHORTFALL_TOLERANCE_FRAMES < loopFrames {
      return EmptyTape(format);
    }
    WholeFrames(loopFrames, channels);
    var bodySpan := loopFrames * channels;
    var padded := window;
    if |window| < bodySpan {
      padded := window + Zeros(bodySpan - |window|);
    }
    assert padded == Padded(window, bodySpan);
    if |padded| % channels == 0 {
      FrameCount(|padded|, channels);
      if |padded| / channels < loopFrames {
        ScaleStrict(|padded| / channels, loopFrames, channels);
      }
    }
    var r := WithSegment(math, format, padded, loopFrames, xfadeFrames);
    return if r.Ready? then r.tape else EmptyTape(format);
  }

  /** Whether a clip of `clipFrames` frames can give the declared window `[from, to)` (in
      samples): in range, under the memory cap, and short by no more than the tolerance. */
  predicate Satisfiable(clipFrames: nat, from: Option<nat>, to: Option<nat>) {
    && from.Some? && to.Some? && from.value < to.value
    && to.value - from.value <= MAX_LOOP_SECONDS * SAMPLE_RATE
    && from.value < clipFrames
    && to.value <= clipFrames + SHORTFALL_TOLERANCE_FRAMES
  }

  /** The part of the clip a loop is built from: the window and up to `xfade` frames more. */
  function VampSpan(clip: seq<real>, channels: nat, from: nat, to: nat, xfade: nat): seq<real>
    requires channels > 0 && |clip| % channels == 0
  {
    var end := Min(to + xfade, |clip| / channels);
    if from >= end then [] else
      FrameCount(|clip|, channels);
      ScaleMono(0, from, channels);
      ScaleMono(from, end, channels);
      ScaleMono(end, |clip| / channels, channels);
      clip[from * channels..end * channels]
  }

  lemma SpanIsWhole(clip: seq<real>, channels: nat, from: nat, to: nat, xfade: nat)
    requires channels > 0 && |clip| % channels == 0 && from < to && from < |clip| / channels
    ensures var end := Min(to + xfade, |clip| / channels);
            && 0 <= from * channels <= end * channels <= |clip|
            && VampSpan(clip, channels, from, to, xfade) == clip[from * channels..end * channels]
            && |VampSpan(clip, channels, from, to, xfade)| % channels == 0
  {
    var end := Min(to + xfade, |clip| / channels);
    FrameCount(|clip|, channels);
    ScaleMono(0, from, channels);
    ScaleMono(from, end, channels);
    ScaleMono(end, |clip| / channels, channels);
    Distribute(end, from, channels);
    WholeFrames(end - from, channels);
  }

  /** A loop whose material ends at its loop point, with a head loud enough to count and inside
      the sample range, replays its body unaltered, lap after lap: the seam is inaudible. */
  lemma PlainLoopIsTheBody(math: SeamMath, t: Tape, decoded: seq<real>, loopFrames: nat, xfade: nat,
                           now: Transport, f: nat, c: nat)
    requires math.Lawful() && Records(math, t, t.format, decoded, loopFrames, xfade) && loopFrames > 0
    requires |decoded| == |t.body| && |t.seam| > 0
    requires var head := t.body[..|t.seam|]; Dot(head, head, |head|) > EPSILON
    requires forall k | 0 <= k < |t.body| :: -1.0 <= t.body[k] <= 1.0
    requires now.state.Vamping? && c < t.C()
    ensures LapFrame(loopFrames, now.phase, f) * t.C() + c < |t.body|
    ensures DeckSample(math.trig, t, now, f, c) == t.body[LapFrame(loopFrames, now.phase, f) * t.C() + c]
  {
    var m := LapFrame(loopFrames, now.phase, f);
    FrameInside(m, c, loopFrames, t.C());
    if m < t.xfade {
      var k, head := m * t.C() + c, t.body[..|t.seam|];
      FrameInside(m, c, t.xfade, t.C());
      QuotientUnique(k, t.C(), m, c);
      assert TailLeg(decoded, |t.body|, |t.seam|, head) == head;
      assert t.seam[k] == SeamSample(math.trig, Decorrelated(math, head, head), m, t.xfade, head[k], head[k]);
      SelfSeamIsTransparent(math, head, m, t.xfade, head[k]);
    }
  }

  /** A stop is said to restart the loop from the first body frame.  The first sample played is that
      one exactly when there is no crossfade, or the seam's first frame gives it back: under the
      linear law when the tail starts on the very same sample, since the seam starts half-way
      through; under the equal-power one when the tail makes up just what the head lacks. */
  lemma RecueStartsAtBodyIff(math: SeamMath, t: Tape, decoded: seq<real>, loopFrames: nat, xfade: nat,
                             now: Transport, abs: nat, frames: nat, c: nat)
    requires Records(math, t, t.format, decoded, loopFrames, xfade) && loopFrames > 0 && c < t.C()
    requires c < |t.body| && -1.0 < t.body[c] < 1.0
    ensures var cued := now.Stop().Vamp().AfterRead(loopFrames, abs, frames);
            DeckSample(math.trig, t, cued, abs, c) == t.body[c] <==> t.xfade == 0 || SeamGivesBack(math, t, decoded, c)
  {
    var cued := now.Stop().Vamp().AfterRead(loopFrames, abs, frames);
    DeckTheorems.RecueStartsAtHead(math.trig, t, now, abs, frames, c);
    if t.xfade > 0 {
      FrameInside(0, c, t.xfade, t.C());
      QuotientUnique(c, t.C(), 0, c);
      var head := t.body[..|t.seam|];
      var tail := TailLeg(decoded, |t.body|, |t.seam|, head);
      var d := Decorrelated(math, head, tail);
      assert t.seam[c] == SeamSample(math.trig, d, 0, t.xfade, tail[c], head[c]);
      FirstSeamSampleIff(math.trig, d, t.xfade, tail[c], head[c]);
    }
  }

  predicate SeamGivesBack(math: SeamMath, t: Tape, decoded: seq<real>, c: nat)
    requires t.xfade > 0 && c < |t.seam| <= |t.body| <= |decoded|
  {
    var head := t.body[..|t.seam|];
    var tail := TailLeg(decoded, |t.body|, |t.seam|, head);
    && |tail| == |t.seam|
    && var (gt, gh) := SeamGains(math.trig, true, 0, t.xfade);
       if Decorrelated(math, head, tail) then Scale(gt, tail[c]) == Scale(1.0 - gh, head[c]) else tail[c] == head[c]
  }

  lemma FirstSeamSampleIff(trig: Trig, decorrelated: bool, xfade: nat, tail: real, head: real)
    requires xfade > 0 && -1.0 < head < 1.0
    ensures SeamSample(trig, decorrelated, 0, xfade, tail, head) == head
            <==> if decorrelated then
                   var (gt, gh) := SeamGains(trig, true, 0, xfade);
                   Scale(gt, tail) == Scale(1.0 - gh, head)
                 else tail == head
  {
    if decorrelated {
      var (gt, gh) := SeamGains(trig, true, 0, xfade);
      assert Scale(1.0 - gh, head) == head - Scale(gh, head);
      hide Scale, SeamGains;
    } else {
      assert SeamPhase(0, xfade) == 0.5;
      assert Scale(0.5, tail) + Scale(0.5, head) == 0.5 * tail + 0.5 * head;
    }
  }

  /** The whole-clip path: the vamp window of asset frames `[vampIn, vampOut)` cut out of a
      clip at its cadence; any window that cannot be met is a silent tape. */
  method FromClipWindow(math: SeamMath, format: AudioFormat, clip: seq<real>, vampIn: nat, vampOut: nat,
                        num: int, den: int, xfadeFrames: nat)
    returns (r: Primed)
    ensures r == Ragged(|clip|, format.Channels()) <==> |clip| % format.Channels() != 0
    ensures r.Ragged? ==> |clip| % format.Channels() != 0
    ensures |clip| % format.Channels() == 0 ==>
              var from, to := FrameToSample(vampIn, num, den), FrameToSample(vampOut, num, den);
              var xfade := if xfadeFrames == 0 then DEFAULT_CROSSFADE_FRAMES else xfadeFrames;
              if Satisfiable(|clip| / format.Channels(), from, to) then
                var loopFrames := to.value - from.value;
                var span := VampSpan(clip, format.Channels(), from.value, to.value, xfade);
                Records(math, r.tape, format, Padded(span, loopFrames * format.Channels()), loopFrames, xfade)
              else r.tape == EmptyTape(format)
  {
    hide Records, Padded, FrameToSample, VampSpan;
    var channels := format.Channels();
    if |clip| % channels != 0 {
      return Ragged(|clip|, channels);
    }
    var xfade := if xfadeFrames == 0 then DEFAULT_CROSSFADE_FRAMES else xfadeFrames;
    var inSample, outSample := FrameToSample(vampIn, num, den), FrameToSample(vampOut, num, den);
    if inSample.None? || outSample.None? || outSample.value <= inSample.value {
      return Ready(EmptyTape(format));
    }
    var loopFrames := outSample.value - inSample.value;
    var totalFrames := |clip| / channels;
    if loopFrames > MAX_LOOP_SECONDS * SAMPLE_RATE || inSample.value >= totalFrames
       || totalFrames - inSample.value + SHORTFALL_TOLERANCE_FRAMES < loopFrames {
      return Ready(EmptyTape(format));
    }
    var wantEnd := Min(inSample.value + loopFrames + xfade, totalFrames);
    SpanIsWhole(clip, channels, inSample.value, outSample.value, xfade);
    var window := clip[inSample.value * channels..wantEnd * channels];
    r := WithWindow(math, format, window, loopFrames, xfade);
  }

  /** Pads a whole-frame window to the declared length and records it. */
  method WithWindow(math: SeamMath, format: AudioFormat, window: seq<real>, loopFrames: nat, xfade: nat) returns (r: Primed)
    requires |window| % format.Channels() == 0 && loopFrames > 0
    ensures r.Ready? && Records(math, r.tape, format, Padded(window, loopFrames * format.Channels()), loopFrames, xfade)
  {
    var channels := format.Channels();
    WholeFrames(loopFrames, channels);
    var bodySpan := loopFrames * channels;
    var padded := window;
    if |window| < bodySpan {
      padded := window + Zeros(bodySpan - |window|);
    }
    assert padded == Padded(window, bodySpan);
    FrameCount(|padded|, channels);
    if |padded| / channels < loopFrames {
      ScaleStrict(|padded| / channels, loopFrames, channels);
    }
    r := WithSegment(math, format, padded, loopFrames, xfade);
  }
}
