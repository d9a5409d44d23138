/** The oversampling true-peak detector of one channel, after Annex 2 of ITU-R BS.1770-4:
    four phase filters over the last twelve samples. */
module TruePeak {
  import opened Audio
  import opened Mixer

  const TAPS: nat := 12
  const OVERSAMPLE: nat := 4

  /** The interpolation filter: theorems about the detector hold for any coefficients. */
  datatype Filter = Filter(phases: seq<seq<real>>) {
    predicate Valid() {
      |phases| == OVERSAMPLE && forall p | 0 <= p < |phases| :: |phases[p]| == TAPS
    }
  }

  /** A phase that reproduces the sample six steps back. */
  const PASS: seq<real> := [0.0, 0.0, 0.0, 0.0, 0.0, 0.0, 1.0, 0.0, 0.0, 0.0, 0.0, 0.0]

  /** The last twelve samples, newest first. */
  type Window = w: seq<real> | |w| == TAPS witness [0.0, 0.0, 0.0, 0.0, 0.0, 0.0, 0.0, 0.0, 0.0, 0.0, 0.0, 0.0]

  function Greater(a: real, b: real): real {
    if b > a then b else a
  }

  // ---- the filter the detector builds ---------------------------------------------------------

  const PROTOTYPE: nat := TAPS * OVERSAMPLE
  const CENTRE: nat := TAPS / 2 * OVERSAMPLE

  function WholeTurns(trig: Trig, k: int): real {
    k as real * (4.0 * trig.halfPi)
  }

  /** What the design needs of sine and cosine: sine vanishes at whole turns, cosine stays inside
      the unit range and is not positive across the half turn opposite zero. */
  ghost predicate Turns(trig: Trig) {
    && trig.halfPi > 1.0
    && (forall k: int :: trig.sin(WholeTurns(trig, k)) == 0.0)
    && (forall x: real :: -1.0 <= trig.cos(x) <= 1.0)
    && (forall x: real | trig.halfPi <= x <= 3.0 * trig.halfPi :: trig.cos(x) <= 0.0)
  }

  /** Tap `n` of the Blackman-windowed sinc, centred on a sample of the first phase. */
  function Prototype(trig: Trig, n: nat): real {
    Scale(Sinc(trig, n as int - CENTRE), Blackman(trig, n))
  }

  /** The argument of the sinc `t` taps from the centre: a quarter turn a tap. */
  function SincAngle(halfPi: real, t: int): real {
    4.0 * halfPi * (1.0 / OVERSAMPLE as real) * t as real
  }

  function Sinc(trig: Trig, t: int): real {
    var x := SincAngle(trig.halfPi, t);
    if Abs(x) < 1.0 / 1_000_000_000.0 then 1.0 else trig.sin(x) / x
  }

  /** The angle `turns` whole turns reach a fraction `r` of the way. */
  function Sweep(halfPi: real, turns: real, r: real): real {
    turns * (4.0 * halfPi) * r
  }

  function Blackman(trig: Trig, n: nat): real {
    var r := n as real / (PROTOTYPE - 1) as real;
    0.42 - 0.5 * trig.cos(Sweep(trig.halfPi, 1.0, r)) + 0.08 * trig.cos(Sweep(trig.halfPi, 2.0, r))
  }

  /** The sum of the first `n` taps of phase `p`. */
  function PhaseSum(trig: Trig, p: nat, n: nat): real {
    if n == 0 then 0.0 else PhaseSum(trig, p, n - 1) + Prototype(trig, (n - 1) * OVERSAMPLE + p)
  }

  /** Phase `p`, normalised to unity gain at DC. */
  function Phase(trig: Trig, p: nat): (c: seq<real>)
    ensures |c| == TAPS
  {
    var sum := PhaseSum(trig, p, TAPS);
    seq(TAPS, j requires 0 <= j < TAPS => Normalised(Prototype(trig, j * OVERSAMPLE + p), sum))
  }

  function Normalised(tap: real, sum: real): real {
    if Abs(sum) > 1.0 / 1_000_000_000_000.0 then tap / sum else tap
  }

  method BuildPolyphase(trig: Trig) returns (f: Filter)
    ensures f.Valid() && forall p | 0 <= p < OVERSAMPLE :: f.phases[p] == Phase(trig, p)
  {
    hide Prototype;
    var phases: seq<seq<real>> := [];
    for p := 0 to OVERSAMPLE
      invariant |phases| == p && forall q | 0 <= q < p :: phases[q] == Phase(trig, q)
    {
      var phase := new real[TAPS](_ => 0.0);
      var sum := 0.0;
      for j := 0 to TAPS
        invariant sum == PhaseSum(trig, p, j)
        invariant forall i | 0 <= i < j :: phase[i] == Prototype(trig, i * OVERSAMPLE + p)
      {
        phase[j] := Prototype(trig, j * OVERSAMPLE + p);
        sum := sum + phase[j];
      }
      for j := 0 to TAPS
        invariant forall i | 0 <= i < TAPS ::
                    phase[i] == if i < j then Phase(trig, p)[i] else Prototype(trig, i * OVERSAMPLE + p)
      {
        phase[j] := Normalised(phase[j], sum);
      }
      assert phase[..] == Phase(trig, p);
      phases := phases + [phase[..]];
    }
    f := Filter(phases);
  }

  /** The first phase built is the pure passthrough: it reproduces the sample six steps back. */
  lemma FirstPhasePassesThrough(trig: Trig)
    requires Turns(trig)
    ensures Phase(trig, 0) == PASS
  {
    hide Prototype;
    OnlyTheCentre(trig, TAPS);
    CentreTap(trig);
    forall j | 0 <= j < TAPS
      ensures Phase(trig, 0)[j] == PASS[j]
    {
      if j != TAPS / 2 {
        OffCentreTap(trig, j);
      }
    }
  }

  lemma OffCentreTap(trig: Trig, j: nat)
    requires Turns(trig) && j < TAPS && j != TAPS / 2
    ensures Prototype(trig, j * OVERSAMPLE) == 0.0
  {
    var k := j as int - 6;
    WholeTurnsAreSilent(trig, k);
    assert j * OVERSAMPLE - CENTRE == 4 * k;
    hide Sinc, Blackman;
    assert Scale(0.0, Blackman(trig, j * OVERSAMPLE)) == 0.0;
  }

  lemma WholeTurnsAreSilent(trig: Trig, k: int)
    requires Turns(trig) && k != 0
    ensures Sinc(trig, 4 * k) == 0.0
  {
    hide SincAngle;
    FourTapsTurn(trig.halfPi, k);
    TurnsAreFar(k, 4.0 * trig.halfPi);
    var x := SincAngle(trig.halfPi, 4 * k);
    assert x == WholeTurns(trig, k);
    assert trig.sin(x) == 0.0;
    assert Abs(x) >= 1.0 / 1_000_000_000.0;
    assert Sinc(trig, 4 * k) == trig.sin(x) / x;
  }

  lemma FourTapsTurn(h: real, k: int)
    ensures SincAngle(h, 4 * k) == k as real * (4.0 * h)
  {
    assert 1.0 / OVERSAMPLE as real == 0.25;
    assert (4 * k) as real == 4.0 * k as real;
  }

  lemma TurnsAreFar(k: int, turn: real)
    requires k != 0 && turn > 4.0
    ensures Abs(k as real * turn) > 1.0
    ensures 0.0 / (k as real * turn) == 0.0
  {
    if k > 0 {
      ScaleGrows(1.0, k as real, turn);
    } else {
      ScaleGrows(k as real, -1.0, turn);
    }
  }

  lemma CentreTap(trig: Trig)
    requires Turns(trig)
    ensures Prototype(trig, CENTRE) >= 0.34
  {
    assert Sinc(trig, 0) == 1.0;
    CentreOfTheWindow(trig, CENTRE);
  }

  /** Across the middle of the prototype the window stays well above zero. */
  lemma CentreOfTheWindow(trig: Trig, n: nat)
    requires Turns(trig) && 12 <= n <= 35
    ensures Blackman(trig, n) >= 0.34
  {
    var r := n as real / (PROTOTYPE - 1) as real;
    assert 12.0 / 47.0 <= r <= 35.0 / 47.0;
    ScaleGrows(1.0, 4.0 * r, trig.halfPi);
    ScaleGrows(4.0 * r, 3.0, trig.halfPi);
    assert Sweep(trig.halfPi, 1.0, r) == Scale(4.0 * r, trig.halfPi);
    assert trig.cos(Sweep(trig.halfPi, 1.0, r)) <= 0.0 && trig.cos(Sweep(trig.halfPi, 2.0, r)) >= -1.0;
  }

  lemma {:induction false} OnlyTheCentre(trig: Trig, n: nat)
    requires Turns(trig) && n <= TAPS
    ensures PhaseSum(trig, 0, n) == if n > TAPS / 2 then Prototype(trig, CENTRE) else 0.0
  {
    if n == 0 {
    } else {
      hide Prototype;
      OnlyTheCentre(trig, n - 1);
      if n - 1 != TAPS / 2 {
        OffCentreTap(trig, n - 1);
      }
    }
  }

  // ---- the filter's gain -----------------------------------------------------------------

  function L1(c: seq<real>, n: nat): real
    requires n <= |c|
  {
    if n == 0 then 0.0 else L1(c, n - 1) + Abs(c[n - 1])
  }

  /** The largest L1 norm of the first `n` phases. */
  function GainBound(f: Filter, n: nat): real
    requires f.Valid() && n <= OVERSAMPLE
  {
    if n == 0 then 0.0 else Greater(GainBound(f, n - 1), L1(f.phases[n - 1], TAPS))
  }

  /** The loudest of the first `n` phase outputs over a window. */
  function Loudest(f: Filter, w: Window, n: nat): real
    requires f.Valid() && n <= OVERSAMPLE
  {
    if n == 0 then 0.0 else Greater(Loudest(f, w, n - 1), Abs(Dot(f.phases[n - 1], w, TAPS)))
  }

  function WindowPeak(f: Filter, w: Window): real
    requires f.Valid()
  {
    Loudest(f, w, OVERSAMPLE)
  }

  /** No sample of `w` is louder than `m`. */
  predicate Within(w: seq<real>, m: real) {
    forall j | 0 <= j < |w| :: Abs(w[j]) <= m
  }

  lemma ProductBound(c: real, x: real, m: real)
    requires Abs(x) <= m
    ensures Abs(Scale(c, x)) <= Scale(Abs(c), m)
  {}

  lemma {:induction false} DotBound(c: seq<real>, w: seq<real>, m: real, n: nat)
    requires n <= |c| && n <= |w| && Within(w, m)
    ensures Abs(Dot(c, w, n)) <= Scale(L1(c, n), m)
  {
    if n == 0 {
      assert Scale(0.0, m) == 0.0;
    } else {
      DotBound(c, w, m, n - 1);
      ProductBound(c[n - 1], w[n - 1], m);
      ScaleSums(L1(c, n - 1), Abs(c[n - 1]), m);
      hide Scale;
    }
  }

  /** Every phase output is at most the gain bound times the loudest sample of its window. */
  lemma {:induction false} GainBoundHolds(f: Filter, w: Window, m: real, n: nat)
    requires f.Valid() && Within(w, m) && n <= OVERSAMPLE
    ensures Loudest(f, w, n) <= Scale(GainBound(f, n), m)
  {
    assert Abs(w[0]) <= m;
    if n == 0 {
      assert Scale(0.0, m) == 0.0;
    } else {
      hide Scale, Dot, L1;
      var l1 := L1(f.phases[n - 1], TAPS);
      GainBoundHolds(f, w, m, n - 1);
      DotBound(f.phases[n - 1], w, m, TAPS);
      ScaleGrows(GainBound(f, n - 1), GainBound(f, n), m);
      ScaleGrows(l1, GainBound(f, n), m);
    }
  }

  lemma {:induction false} GainBoundIsNonNegative(f: Filter, n: nat)
    requires f.Valid() && n <= OVERSAMPLE
    ensures 0.0 <= GainBound(f, n)
  {
    if n == 0 {
    } else {
      GainBoundIsNonNegative(f, n - 1);
    }
  }

  // ---- linearity ---------------------------------------------------------------------------

  function ScaledBy(w: seq<real>, a: real): (r: seq<real>)
    ensures |r| == |w|
  {
    seq(|w|, j requires 0 <= j < |w| => Scale(w[j], a))
  }

  lemma {:induction false} DotIsLinear(c: seq<real>, w: seq<real>, a: real, n: nat)
    requires n <= |c| && n <= |w|
    ensures Dot(c, ScaledBy(w, a), n) == Scale(Dot(c, w, n), a)
  {
    if n == 0 {
      assert Scale(0.0, a) == 0.0;
    } else {
      DotIsLinear(c, w, a, n - 1);
      ScaleRegroups(c[n - 1], w[n - 1], a);
      ScaleSums(Dot(c, w, n - 1), Scale(c[n - 1], w[n - 1]), a);
      hide Scale;
      assert ScaledBy(w, a)[n - 1] == Scale(w[n - 1], a);
    }
  }

  lemma AbsScales(x: real, a: real)
    requires a >= 0.0
    ensures Abs(Scale(x, a)) == Scale(Abs(x), a)
  {}

  lemma GreaterScales(x: real, y: real, a: real)
    requires a >= 0.0
    ensures Greater(Scale(x, a), Scale(y, a)) == Scale(Greater(x, y), a)
  {}

  lemma {:induction false} PeakScales(f: Filter, w: Window, a: real, n: nat)
    requires f.Valid() && n <= OVERSAMPLE && a >= 0.0
    ensures Loudest(f, ScaledBy(w, a), n) == Scale(Loudest(f, w, n), a)
  {
    if n == 0 {
      assert Scale(0.0, a) == 0.0;
    } else {
      var c := f.phases[n - 1];
      hide Scale, Dot, ScaledBy, Greater, Abs;
      PeakScales(f, w, a, n - 1);
      DotIsLinear(c, w, a, TAPS);
      AbsScales(Dot(c, w, TAPS), a);
      GreaterScales(Loudest(f, w, n - 1), Abs(Dot(c, w, TAPS)), a);
    }
  }

  // ---- the detector as a value ----------------------------------------------------------------

  datatype Detector = Detector(window: Window, primed: nat, peak: real) {
    predicate Valid() {
      primed <= TAPS && peak >= 0.0
    }

    function Reset(): Detector {
      this.(peak := 0.0)
    }
  }

  /** One sample pushed; peaks count only once the window holds real input. */
  function Pushed(f: Filter, d: Detector, x: real): Detector
    requires f.Valid()
  {
    var w: Window := [x] + d.window[..TAPS - 1];
    var primed := Min(d.primed + 1, TAPS);
    Detector(w, primed, if primed >= TAPS then Greater(d.peak, WindowPeak(f, w)) else d.peak)
  }

  function PushAll(f: Filter, d: Detector, xs: seq<real>): Detector
    requires f.Valid()
  {
    if xs == [] then d else Pushed(f, PushAll(f, d, xs[..|xs| - 1]), xs[|xs| - 1])
  }

  /** The window after `xs` follow history `w`. */
  function History(w: Window, xs: seq<real>): Window {
    seq(TAPS, j requires 0 <= j < TAPS => if j < |xs| then xs[|xs| - 1 - j] else w[j - |xs|])
  }

  /** What priming from a block's tail leaves. */
  function Primed(d: Detector, xs: seq<real>): Detector {
    Detector(History(Silent(), xs), if |xs| > 0 then TAPS else d.primed, d.peak)
  }

  function Silent(): Window {
    Zeros(TAPS)
  }

  lemma {:induction false} PushedHistory(f: Filter, d: Detector, xs: seq<real>)
    requires f.Valid() && d.Valid()
    ensures PushAll(f, d, xs).window == History(d.window, xs)
    ensures PushAll(f, d, xs).primed == Min(d.primed + |xs|, TAPS)
  {
    if xs == [] {
      assert History(d.window, xs) == d.window;
    } else {
      var rest := xs[..|xs| - 1];
      PushedHistory(f, d, rest);
      var w := [xs[|xs| - 1]] + History(d.window, rest)[..TAPS - 1];
      assert w == History(d.window, xs);
    }
  }

  /** The running peak covers every window seen once primed. */
  lemma {:induction false} PeakCoversWindow(f: Filter, d: Detector, xs: seq<real>, e: nat)
    requires f.Valid() && d.Valid() && e < |xs| && d.primed + e + 1 >= TAPS
    ensures WindowPeak(f, History(d.window, xs[..e + 1])) <= PushAll(f, d, xs).peak
  {
    var rest := xs[..|xs| - 1];
    PushedHistory(f, d, xs);
    if e + 1 < |xs| {
      PeakCoversWindow(f, d, rest, e);
      assert rest[..e + 1] == xs[..e + 1];
    } else {
      assert xs[..e + 1] == xs;
    }
  }

  /** Priming equals pushing exactly when the history it forgets was silent: always for a
      block of at least twelve samples. */
  lemma PrimingIsPushingIff(f: Filter, d: Detector, xs: seq<real>)
    requires f.Valid() && d.Valid()
    ensures Primed(d, xs).window == PushAll(f, d, xs).window
            <==> forall j | 0 <= j < TAPS - |xs| :: d.window[j] == 0.0
    ensures |xs| >= TAPS ==> Primed(d, xs).window == PushAll(f, d, xs).window && Primed(d, xs).primed == PushAll(f, d, xs).primed
  {
    PushedHistory(f, d, xs);
    hide PushAll, History;
    SameHistoryIff(Silent(), d.window, xs, xs);
  }

  /** It counts as many samples exactly when there were none, or they fill the detector: a shorter
      block marks it filled though part of what it will measure is padding. */
  lemma PrimingCountsAsPushingIff(f: Filter, d: Detector, xs: seq<real>)
    requires f.Valid() && d.Valid()
    ensures Primed(d, xs).primed == PushAll(f, d, xs).primed <==> xs == [] || d.primed + |xs| >= TAPS
  {
    PushedHistory(f, d, xs);
  }

  lemma HistoryAt(w: Window, xs: seq<real>, j: nat)
    requires j < TAPS
    ensures History(w, xs)[j] == if j < |xs| then xs[|xs| - 1 - j] else w[j - |xs|]
  {}

  /** Two windows after equally long input agree exactly when what still shows of the older
      samples agrees. */
  lemma SameHistoryIff(u: Window, v: Window, xs: seq<real>, ys: seq<real>)
    requires |xs| == |ys| && forall i | 0 <= i < |xs| && |xs| - TAPS <= i :: xs[i] == ys[i]
    ensures History(u, xs) == History(v, ys) <==> forall j | 0 <= j < TAPS - |xs| :: u[j] == v[j]
  {
    var a, b := History(u, xs), History(v, ys);
    if a == b {
      forall j | 0 <= j < TAPS - |xs|
        ensures u[j] == v[j]
      {
        assert a[j + |xs|] == u[j] && b[j + |xs|] == v[j];
      }
    }
  }

  /** Scaling the history after the fact equals having pushed scaled samples exactly when the
      older samples it also scales were silent, or the factor is one. */
  lemma ScalingIsPushingScaledIff(f: Filter, d: Detector, xs: seq<real>, a: real)
    requires f.Valid() && d.Valid()
    ensures ScaledBy(PushAll(f, d, xs).window, a) == PushAll(f, d, ScaledBy(xs, a)).window
            <==> forall j | 0 <= j < TAPS - |xs| :: d.window[j] == 0.0 || a == 1.0
  {
    PushedHistory(f, d, xs);
    PushedHistory(f, d, ScaledBy(xs, a));
    ScaledHistory(d.window, xs, a);
    SameHistoryIff(ScaledBy(d.window, a), d.window, ScaledBy(xs, a), ScaledBy(xs, a));
    hide History, PushAll;
    forall j | 0 <= j < TAPS - |xs|
      ensures ScaledBy(d.window, a)[j] == d.window[j] <==> (d.window[j] == 0.0 || a == 1.0)
    {
      OnlyOneFixes(d.window[j], a);
    }
  }

  lemma ScaledHistory(w: Window, xs: seq<real>, a: real)
    ensures ScaledBy(History(w, xs), a) == History(ScaledBy(w, a), ScaledBy(xs, a))
  {}

  lemma OnlyOneFixes(x: real, a: real)
    ensures Scale(x, a) == x <==> x == 0.0 || a == 1.0
  {}

  // ---- the detector in place --------------------------------------------------------------------

  class TruePeakDetector {
    const filter: Filter
    const window: array<real>
    var primed: nat
    var peak: real

    predicate Valid()
      reads this, window
    {
      filter.Valid() && window.Length == TAPS && primed <= TAPS && peak >= 0.0
    }

    function View(): Detector
      requires Valid()
      reads this, window
    {
      Detector(window[..], primed, peak)
    }

    constructor (filter: Filter)
      requires filter.Valid()
      ensures Valid() && this.filter == filter && fresh(window)
      ensures View() == Detector(Silent(), 0, 0.0)
    {
      this.filter := filter;
      window := new real[TAPS](_ => 0.0);
      primed, peak := 0, 0.0;
      new;
      assert window[..] == Silent();
    }

    method Push(x: real)
      requires Valid()
      modifies this, window
      ensures Valid() && View() == Pushed(filter, old(View()), x)
    {
      hide Scale;
      ghost var before := window[..];
      forall j | 0 < j < TAPS {
        window[j] := window[j - 1];
      }
      window[0] := x;
      assert window[..] == [x] + before[..TAPS - 1];
      if primed < TAPS {
        primed := primed + 1;
      }
      if primed >= TAPS {
        ghost var was := peak;
        for p := 0 to OVERSAMPLE
          invariant primed == TAPS && window[..] == [x] + before[..TAPS - 1]
          invariant peak == Greater(was, Loudest(filter, window[..], p))
        {
          var acc := 0.0;
          for j := 0 to TAPS
            invariant acc == Dot(filter.phases[p], window[..], j)
          {
            acc := acc + Scale(filter.phases[p][j], window[j]);
          }
          var mag := Abs(acc);
          if mag > peak {
            peak := mag;
          }
        }
      }
    }

    /** The worst-case peak gain of the filter. */
    method PeakGainBound() returns (worst: real)
      requires Valid()
      ensures worst == GainBound(filter, OVERSAMPLE)
    {
      worst := 0.0;
      for p := 0 to OVERSAMPLE
        invariant worst == GainBound(filter, p)
      {
        var l1 := 0.0;
        for j := 0 to TAPS
          invariant l1 == L1(filter.phases[p], j)
        {
          l1 := l1 + Abs(filter.phases[p][j]);
        }
        if l1 > worst {
          worst := l1;
        }
      }
    }

    /** Sets the window from the tail of channel `channel` without filtering. */
    method PrimeTailInterleaved(interleaved: seq<real>, channel: nat, channels: nat)
      requires Valid()
      modifies this, window
      ensures Valid()
      ensures View() == if channels == 0 || channel >= channels then old(View())
                        else Primed(old(View()), Channel(interleaved, channels, channel))
    {
      if channels == 0 || channel >= channels {
        return;
      }
      var frames := |interleaved| / channels;
      ghost var xs := Channel(interleaved, channels, channel);
      for j := 0 to TAPS
        invariant primed == old(primed) && peak == old(peak)
        invariant forall i | 0 <= i < j :: window[i] == History(Silent(), xs)[i]
      {
        if frames >= 1 + j {
          ChannelIndex(|interleaved|, channels, channel, frames - 1 - j);
          window[j] := interleaved[(frames - 1 - j) * channels + channel];
        } else {
          window[j] := 0.0;
        }
      }
      assert window[..] == History(Silent(), xs);
      if frames > 0 {
        primed := TAPS;
      }
    }

    method ResetPeak()
      requires Valid()
      modifies this
      ensures Valid() && View() == old(View()).Reset()
    {
      peak := 0.0;
    }

    method ScaleHistory(factor: real)
      requires Valid()
      modifies window
      ensures Valid() && View() == old(View()).(window := ScaledBy(old(View()).window, factor))
    {
      ghost var before := window[..];
      for j := 0 to TAPS
        invariant forall i | 0 <= i < TAPS :: window[i] == if i < j then Scale(before[i], factor) else before[i]
      {
        window[j] := Scale(window[j], factor);
      }
      assert window[..] == ScaledBy(before, factor);
    }
  }

  /** The samples of one channel of an interleaved span, frame by frame. */
  function Channel(s: seq<real>, channels: nat, c: nat): (r: seq<real>)
    requires c < channels
    ensures |r| == |s| / channels
  {
    seq(|s| / channels, n requires 0 <= n < |s| / channels =>
      ChannelIndex(|s|, channels, c, n);
      s[n * channels + c])
  }

  lemma ChannelIndex(len: nat, channels: nat, c: nat, n: nat)
    requires c < channels && n < len / channels
    ensures 0 <= n * channels + c < len
  {
    FrameBounds(len, channels, n);
  }
}
