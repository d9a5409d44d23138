/** The four phases of the filter the detector builds: which of them interpolate, which give a
    constant back, and the one that measures nothing. */
module TruePeakPhases {
  import opened Audio
  import opened Mixer
  import opened TruePeak

  /** `k` half turns, and `k` half turns and a quarter. */
  function HalfTurns(trig: Trig, k: int): real {
    k as real * (2.0 * trig.halfPi)
  }

  function OddQuarters(trig: Trig, k: int): real {
    (2 * k + 1) as real * trig.halfPi
  }

  /** Sine vanishes at every half turn and reaches its extremes half-way between. */
  ghost predicate SineTurns(trig: Trig) {
    && trig.halfPi > 1.0
    && (forall k: int :: trig.sin(HalfTurns(trig, k)) == 0.0)
    && (forall k: int :: trig.sin(OddQuarters(trig, k)) == 1.0 || trig.sin(OddQuarters(trig, k)) == -1.0)
  }

  lemma AngleOfTap(halfPi: real, t: int)
    ensures SincAngle(halfPi, t) == t as real * halfPi
  {
    assert 1.0 / OVERSAMPLE as real == 0.25;
  }

  lemma FarFromZero(x: real, n: real)
    requires x > 1.0 && (n >= 1.0 || n <= -1.0)
    ensures n * x > 1.0 || n * x < -1.0
  {
    if n >= 1.0 {
      ScaleGrows(1.0, n, x);
    } else {
      ScaleGrows(n, -1.0, x);
    }
  }

  // ---- the phase half-way between two samples ----------------------------------------------------

  /** The sinc turns a quarter a tap, so every tap an even number of taps from the centre, but the
      centre itself, is zero. */
  lemma EvenTapsAreSilent(trig: Trig, k: int)
    requires SineTurns(trig) && k != 0
    ensures Sinc(trig, 2 * k) == 0.0
  {
    AngleOfTap(trig.halfPi, 2 * k);
    var x := SincAngle(trig.halfPi, 2 * k);
    assert x == HalfTurns(trig, k);
    FarFromZero(trig.halfPi, (2 * k) as real);
    assert trig.sin(x) == 0.0;
    assert 0.0 / x == 0.0;
  }

  /** The phase half-way between two samples is said to interpolate.  All its taps are zero: it
      never measures anything. */
  lemma HalfSamplePhaseIsSilent(trig: Trig, w: Window)
    requires SineTurns(trig)
    ensures Phase(trig, 2) == Zeros(TAPS) && Dot(Phase(trig, 2), w, TAPS) == 0.0
  {
    hide Prototype;
    SilentSum(trig, TAPS);
    forall j | 0 <= j < TAPS
      ensures Phase(trig, 2)[j] == 0.0
    {
      HalfSampleTap(trig, j);
    }
    SilentDot(Phase(trig, 2), w, TAPS);
  }

  lemma HalfSampleTap(trig: Trig, j: nat)
    requires SineTurns(trig)
    ensures Prototype(trig, j * OVERSAMPLE + 2) == 0.0
  {
    var k := 2 * (j as int) - 11;
    EvenTapsAreSilent(trig, k);
    assert j * OVERSAMPLE + 2 - CENTRE == 2 * k;
    hide Sinc, Blackman;
    assert Scale(0.0, Blackman(trig, j * OVERSAMPLE + 2)) == 0.0;
  }

  lemma {:induction false} SilentSum(trig: Trig, n: nat)
    requires SineTurns(trig)
    ensures PhaseSum(trig, 2, n) == 0.0
  {
    hide Prototype;
    if n == 0 {
    } else {
      SilentSum(trig, n - 1);
      HalfSampleTap(trig, n - 1);
    }
  }

  lemma {:induction false} SilentDot(c: seq<real>, w: seq<real>, n: nat)
    requires n <= |c| && n <= |w| && forall j | 0 <= j < |c| :: c[j] == 0.0
    ensures Dot(c, w, n) == 0.0
  {
    if n == 0 {
    } else {
      SilentDot(c, w, n - 1);
      assert Scale(0.0, w[n - 1]) == 0.0;
    }
  }

  // ---- constants -------------------------------------------------------------------------------------

  /** A window that holds one level. */
  function Level(x: real): (w: Window)
    ensures forall j | 0 <= j < TAPS :: w[j] == x
  {
    seq(TAPS, _ => x)
  }

  /** The first `n` taps together. */
  function Total(c: seq<real>, n: nat): real
    requires n <= |c|
  {
    if n == 0 then 0.0 else Total(c, n - 1) + c[n - 1]
  }

  lemma {:induction false} LevelDot(c: seq<real>, x: real, n: nat)
    requires n <= |c| && n <= TAPS
    ensures Dot(c, Level(x), n) == Scale(Total(c, n), x)
  {
    if n == 0 {
      assert Scale(0.0, x) == 0.0;
    } else {
      LevelDot(c, x, n - 1);
      ScaleSums(Total(c, n - 1), c[n - 1], x);
    }
  }

  lemma {:induction false} PhaseTotal(trig: Trig, p: nat, n: nat)
    requires n <= TAPS
    ensures Total(Phase(trig, p), n) == Normalised(PhaseSum(trig, p, n), PhaseSum(trig, p, TAPS))
  {
    var sum := PhaseSum(trig, p, TAPS);
    hide Prototype, Normalised, Phase;
    if n == 0 {
      NormalisedZero(sum);
    } else {
      PhaseTotal(trig, p, n - 1);
      TapOfPhase(trig, p, n - 1);
      NormalisedSum(PhaseSum(trig, p, n - 1), Prototype(trig, (n - 1) * OVERSAMPLE + p), sum);
    }
  }

  lemma TapOfPhase(trig: Trig, p: nat, j: nat)
    requires j < TAPS
    ensures Phase(trig, p)[j] == Normalised(Prototype(trig, j * OVERSAMPLE + p), PhaseSum(trig, p, TAPS))
  {}

  lemma NormalisedZero(sum: real)
    ensures Normalised(0.0, sum) == 0.0
  {}

  lemma NormalisedSum(a: real, b: real, sum: real)
    ensures Normalised(a + b, sum) == Normalised(a, sum) + Normalised(b, sum)
  {}

  /** Each phase is said to be normalised so that a constant reconstructs to itself.  It does exactly
      when its taps do not cancel. */
  lemma ConstantsReconstructIff(trig: Trig, p: nat)
    requires p < OVERSAMPLE
    ensures (forall x: real :: Dot(Phase(trig, p), Level(x), TAPS) == x)
            <==> Abs(PhaseSum(trig, p, TAPS)) > 1.0 / 1_000_000_000_000.0
  {
    hide Phase, PhaseSum, Total;
    var sum := PhaseSum(trig, p, TAPS);
    PhaseTotal(trig, p, TAPS);
    forall x: real
      ensures Dot(Phase(trig, p), Level(x), TAPS) == Scale(Normalised(sum, sum), x)
    {
      LevelDot(Phase(trig, p), x, TAPS);
    }
    assert Scale(Normalised(sum, sum), 1.0) == Normalised(sum, sum);
    if Abs(sum) > 1.0 / 1_000_000_000_000.0 {
      assert sum / sum == 1.0;
      assert forall x: real :: Scale(1.0, x) == x;
    } else {
      assert Dot(Phase(trig, p), Level(1.0), TAPS) != 1.0;
    }
  }

  /** The first phase does; the one half-way between two samples gives silence for any constant. */
  lemma HalfSamplePhaseLosesConstants(trig: Trig, x: real)
    requires SineTurns(trig) && Turns(trig)
    ensures Dot(Phase(trig, 0), Level(x), TAPS) == x && Dot(Phase(trig, 2), Level(x), TAPS) == 0.0
  {
    HalfSamplePhaseIsSilent(trig, Level(x));
    FirstPhasePassesThrough(trig);
    PassedLevel(x);
  }

  lemma PassedLevel(x: real)
    ensures Dot(PASS, Level(x), TAPS) == x
  {
    var w := Level(x);
    SilentPrefix(w, 6);
    assert Dot(PASS, w, 7) == Dot(PASS, w, 6) + Scale(PASS[6], w[6]);
    assert Scale(0.0, x) == 0.0 && Scale(1.0, x) == x;
    assert Dot(PASS, w, 8) == Dot(PASS, w, 7) + Scale(PASS[7], w[7]);
    assert Dot(PASS, w, 9) == Dot(PASS, w, 8) + Scale(PASS[8], w[8]);
    assert Dot(PASS, w, 10) == Dot(PASS, w, 9) + Scale(PASS[9], w[9]);
    assert Dot(PASS, w, 11) == Dot(PASS, w, 10) + Scale(PASS[10], w[10]);
    assert Dot(PASS, w, 12) == Dot(PASS, w, 11) + Scale(PASS[11], w[11]);
  }

  lemma {:induction false} SilentPrefix(w: Window, n: nat)
    requires n <= 6
    ensures Dot(PASS, w, n) == 0.0
  {
    if n == 0 {
    } else {
      SilentPrefix(w, n - 1);
      assert PASS[n - 1] == 0.0 && Scale(0.0, w[n - 1]) == 0.0;
    }
  }

  // ---- the two that interpolate ---------------------------------------------------------------------

  lemma OddTapsSound(trig: Trig, k: int)
    requires SineTurns(trig)
    ensures Sinc(trig, 2 * k + 1) != 0.0
  {
    AngleOfTap(trig.halfPi, 2 * k + 1);
    var x := SincAngle(trig.halfPi, 2 * k + 1);
    assert x == OddQuarters(trig, k);
    FarFromZero(trig.halfPi, (2 * k + 1) as real);
    assert trig.sin(x) == 1.0 || trig.sin(x) == -1.0;
    NotZero(trig.sin(x), x);
  }

  lemma NotZero(a: real, x: real)
    requires a != 0.0 && x != 0.0
    ensures a / x != 0.0
  {
    assert (a / x) * x == a;
  }

  /** The other two mix the samples either side of them, so neither is a passthrough. */
  lemma OddPhasesInterpolate(trig: Trig, p: nat)
    requires SineTurns(trig) && Turns(trig) && (p == 1 || p == 3)
    ensures Phase(trig, p)[5] != 0.0 && Phase(trig, p)[6] != 0.0 && Phase(trig, p) != PASS
  {
    OddTap(trig, p, 5);
    OddTap(trig, p, 6);
  }

  lemma OddTap(trig: Trig, p: nat, j: nat)
    requires SineTurns(trig) && Turns(trig) && (p == 1 || p == 3) && (j == 5 || j == 6)
    ensures Phase(trig, p)[j] != 0.0
  {
    var n := j * OVERSAMPLE + p;
    var k := (n as int - CENTRE - 1) / 2;
    assert n - CENTRE == 2 * k + 1;
    OddTapsSound(trig, k);
    CentreOfTheWindow(trig, n);
    Product(Sinc(trig, n - CENTRE), Blackman(trig, n));
    var sum := PhaseSum(trig, p, TAPS);
    if Abs(sum) > 1.0 / 1_000_000_000_000.0 {
      NotZero(Prototype(trig, n), sum);
    }
    hide Prototype, PhaseSum;
  }

  lemma Product(a: real, b: real)
    requires a != 0.0 && b > 0.0
    ensures Scale(a, b) != 0.0
  {}

  // ---- symmetry --------------------------------------------------------------------------------------

  /** Sine is odd, and cosine runs the same back from one whole turn and from two. */
  ghost predicate Mirrors(trig: Trig) {
    && (forall x: real :: trig.sin(-x) == -trig.sin(x))
    && (forall x: real :: trig.cos(4.0 * trig.halfPi - x) == trig.cos(x))
    && (forall x: real :: trig.cos(8.0 * trig.halfPi - x) == trig.cos(x))
  }

  lemma SincMirrors(trig: Trig, t: int)
    requires Mirrors(trig)
    ensures Sinc(trig, -t) == Sinc(trig, t)
  {
    AngleOfTap(trig.halfPi, t);
    AngleOfTap(trig.halfPi, -t);
    var x := SincAngle(trig.halfPi, t);
    assert SincAngle(trig.halfPi, -t) == -x;
    assert trig.sin(-x) == -trig.sin(x);
    if x != 0.0 {
      assert (-trig.sin(x)) / (-x) == trig.sin(x) / x;
    }
  }

  /** The window runs the same from either end. */
  lemma WindowMirrors(trig: Trig, n: nat)
    requires Mirrors(trig) && n < PROTOTYPE
    ensures Blackman(trig, PROTOTYPE - 1 - n) == Blackman(trig, n)
  {
    var r, r' := n as real / 47.0, (47 - n) as real / 47.0;
    assert r' == 1.0 - r;
    SweepMirrors(trig.halfPi, 1.0, r);
    SweepMirrors(trig.halfPi, 2.0, r);
    hide Sweep;
    var x, y := Sweep(trig.halfPi, 1.0, r), Sweep(trig.halfPi, 2.0, r);
    assert trig.cos(4.0 * trig.halfPi - x) == trig.cos(x);
    assert trig.cos(8.0 * trig.halfPi - y) == trig.cos(y);
  }

  lemma SweepMirrors(h: real, turns: real, r: real)
    ensures Sweep(h, turns, 1.0 - r) == turns * (4.0 * h) - Sweep(h, turns, r)
  {}

  /** The window closes to nothing at both ends. */
  lemma WindowClosesAtEnds(trig: Trig)
    requires Mirrors(trig) && trig.cos(0.0) == 1.0
    ensures Blackman(trig, 0) == 0.0 && Blackman(trig, PROTOTYPE - 1) == 0.0
  {
    WindowMirrors(trig, 0);
    assert Sweep(trig.halfPi, 1.0, 0.0) == 0.0 && Sweep(trig.halfPi, 2.0, 0.0) == 0.0;
  }

  /** The taps of phases one and three are each other's mirror image about the centre but for the
      window, which is centred half a tap before it: a tap equals its mirror image exactly when the
      sinc is zero there or the window is level from the tap before. */
  lemma TapMirrorsIff(trig: Trig, n: nat)
    requires Mirrors(trig) && 0 < n < PROTOTYPE
    ensures Prototype(trig, PROTOTYPE - n) == Prototype(trig, n)
            <==> Sinc(trig, n as int - CENTRE) == 0.0 || Blackman(trig, n - 1) == Blackman(trig, n)
  {
    SincMirrors(trig, n as int - CENTRE);
    WindowMirrors(trig, n - 1);
    assert PROTOTYPE - n - CENTRE == -(n as int - CENTRE) && PROTOTYPE - 1 - (n - 1) == PROTOTYPE - n;
    hide Sinc, Blackman;
    SameProduct(Sinc(trig, n as int - CENTRE), Blackman(trig, n - 1), Blackman(trig, n));
  }

  lemma SameProduct(a: real, x: real, y: real)
    ensures Scale(a, x) == Scale(a, y) <==> a == 0.0 || x == y
  {
    if Scale(a, x) == Scale(a, y) && a != 0.0 {
      assert a * (x - y) == 0.0;
    }
  }
}
