/** The correlation that chooses a seam's law: a normalised one, between minus one and one, that
    how loud the legs are has no part in. */
module SeamCorrelation {
  import opened Audio
  import opened LoopDeck
  import opened DeckBuild
  import TruePeak

  /** The correlation of two legs over what they share. */
  function LegCorrelation(math: SeamMath, head: seq<real>, tail: seq<real>, n: nat): real
    requires n <= |head| && n <= |tail|
  {
    Correlation(math, Dot(head, tail, n), Dot(head, head, n), Dot(tail, tail, n))
  }

  // ---- Cauchy and Schwarz -----------------------------------------------------------------------

  lemma {:induction false} EnergyIsNotNegative(a: seq<real>, n: nat)
    requires n <= |a|
    ensures Dot(a, a, n) >= 0.0
  {
    if n == 0 {
    } else {
      EnergyIsNotNegative(a, n - 1);
      assert Scale(a[n - 1], a[n - 1]) >= 0.0;
    }
  }

  lemma {:induction false} DotIsBounded(a: seq<real>, b: seq<real>, n: nat)
    requires n <= |a| && n <= |b|
    ensures Dot(a, b, n) * Dot(a, b, n) <= Dot(a, a, n) * Dot(b, b, n)
  {
    if n == 0 {
    } else {
      DotIsBounded(a, b, n - 1);
      EnergyIsNotNegative(a, n - 1);
      EnergyIsNotNegative(b, n - 1);
      OneMoreTerm(Dot(a, b, n - 1), Dot(a, a, n - 1), Dot(b, b, n - 1), a[n - 1], b[n - 1]);
    }
  }

  lemma OneMoreTerm(d: real, e: real, f: real, x: real, y: real)
    requires e >= 0.0 && f >= 0.0 && d * d <= e * f
    ensures (d + x * y) * (d + x * y) <= (e + x * x) * (f + y * y)
  {
    var p, q := e * (y * y), f * (x * x);
    CrossTerm(d, e, f, x, y);
    assert (d + x * y) * (d + x * y) == d * d + 2.0 * (d * (x * y)) + (x * x) * (y * y);
    assert (e + x * x) * (f + y * y) == e * f + p + q + (x * x) * (y * y);
  }

  /** Twice the geometric mean is at most the sum. */
  lemma CrossTerm(d: real, e: real, f: real, x: real, y: real)
    requires e >= 0.0 && f >= 0.0 && d * d <= e * f
    ensures 2.0 * (d * (x * y)) <= e * (y * y) + f * (x * x)
  {
    var p, q, c := e * (y * y), f * (x * x), d * (x * y);
    NotNegative(e, y);
    NotNegative(f, x);
    SquaredCross(d, e, f, x, y);
    SumOverTwice(p, q, c);
  }

  lemma NotNegative(e: real, y: real)
    requires e >= 0.0
    ensures e * (y * y) >= 0.0
  {
    assert y * y >= 0.0;
  }

  lemma SquaredCross(d: real, e: real, f: real, x: real, y: real)
    requires d * d <= e * f
    ensures (d * (x * y)) * (d * (x * y)) <= (e * (y * y)) * (f * (x * x))
  {
    var s := (x * y) * (x * y);
    assert s >= 0.0;
    ScaleGrows(d * d, e * f, s);
    assert Scale(d * d, s) == (d * (x * y)) * (d * (x * y));
    assert Scale(e * f, s) == (e * (y * y)) * (f * (x * x));
  }

  lemma SumOverTwice(p: real, q: real, c: real)
    requires p >= 0.0 && q >= 0.0 && c * c <= p * q
    ensures 2.0 * c <= p + q
  {
    assert (p - q) * (p - q) >= 0.0;
    assert (p + q) * (p + q) == (p - q) * (p - q) + 4.0 * (p * q);
    assert (2.0 * c) * (2.0 * c) == 4.0 * (c * c);
    NoLargerSquare(2.0 * c, p + q);
  }

  lemma BiggerSquare(a: real, b: real)
    requires 0.0 <= a < b
    ensures a * a < b * b
  {
    assert a * (b - a) >= 0.0 && b * (b - a) > 0.0;
  }

  // ---- the bound -------------------------------------------------------------------------------------

  lemma NoLargerSquare(a: real, b: real)
    requires b >= 0.0 && a * a <= b * b
    ensures -b <= a <= b
  {
    if a > b {
      BiggerSquare(b, a);
    } else if -a > b {
      BiggerSquare(b, -a);
    }
  }

  /** The correlation of any two legs lies between minus one and one. */
  lemma CorrelationIsBounded(math: SeamMath, head: seq<real>, tail: seq<real>, n: nat)
    requires math.Lawful() && n <= |head| && n <= |tail|
    ensures -1.0 <= LegCorrelation(math, head, tail, n) <= 1.0
  {
    EnergyIsNotNegative(head, n);
    EnergyIsNotNegative(tail, n);
    DotIsBounded(head, tail, n);
    hide Dot, Correlation;
    RootedIsBounded(math, Dot(head, tail, n), Dot(head, head, n), Dot(tail, tail, n));
  }

  lemma RootedIsBounded(math: SeamMath, d: real, e: real, f: real)
    requires math.Lawful() && e >= 0.0 && f >= 0.0 && d * d <= e * f
    ensures -1.0 <= Correlation(math, d, e, f) <= 1.0
  {
    var u, v := math.sqrt(e), math.sqrt(f);
    assert u * u == e && v * v == f;
    RootsBound(d, u, v);
    CorrelationAt(math, d, e, f, u, v);
    hide Correlation;
  }

  lemma RootsBound(d: real, u: real, v: real)
    requires u >= 0.0 && v >= 0.0 && d * d <= (u * u) * (v * v)
    ensures u * v >= 0.0 && (u * v > 0.0 ==> -1.0 <= d / (u * v) <= 1.0)
  {
    var s := u * v;
    assert s >= 0.0 && s * s == (u * u) * (v * v);
    NoLargerSquare(d, s);
    if s > 0.0 {
      Ratio(d, s);
    }
  }

  lemma CorrelationAt(math: SeamMath, d: real, e: real, f: real, u: real, v: real)
    requires math.sqrt(e) == u && math.sqrt(f) == v
    ensures Correlation(math, d, e, f) == if u * v == 0.0 then 0.0 else d / (u * v)
  {}

  lemma Ratio(d: real, s: real)
    requires s > 0.0 && -s <= d <= s
    ensures -1.0 <= d / s <= 1.0
  {
    var r := d / s;
    assert Scale(r, s) == d && Scale(1.0, s) == s && Scale(-1.0, s) == -s;
    if r > 1.0 {
      Grows(1.0, r, s);
    } else if r < -1.0 {
      Grows(r, -1.0, s);
    }
  }

  lemma Grows(a: real, b: real, s: real)
    requires a < b && s > 0.0
    ensures Scale(a, s) < Scale(b, s)
  {}

  // ---- loudness has no part in it ------------------------------------------------------------------

  lemma {:induction false} DotScales(a: seq<real>, b: seq<real>, g: real, n: nat)
    requires n <= |a| && n <= |b|
    ensures Dot(TruePeak.ScaledBy(a, g), b, n) == Scale(g, Dot(a, b, n))
    ensures Dot(b, TruePeak.ScaledBy(a, g), n) == Scale(g, Dot(b, a, n))
  {
    if n == 0 {
      assert Scale(g, 0.0) == 0.0;
    } else {
      DotScales(a, b, g, n - 1);
      Factored(g, Dot(a, b, n - 1), a[n - 1], b[n - 1]);
      Factored(g, Dot(b, a, n - 1), b[n - 1], a[n - 1]);
    }
  }

  lemma Factored(g: real, d: real, x: real, y: real)
    ensures Scale(g, d + Scale(x, y)) == Scale(g, d) + Scale(Scale(x, g), y)
    ensures Scale(g, d + Scale(x, y)) == Scale(g, d) + Scale(x, Scale(y, g))
  {}

  lemma EnergyScales(a: seq<real>, g: real, n: nat)
    requires n <= |a|
    ensures Dot(TruePeak.ScaledBy(a, g), TruePeak.ScaledBy(a, g), n) == Scale(Scale(g, g), Dot(a, a, n))
  {
    DotScales(a, TruePeak.ScaledBy(a, g), g, n);
    DotScales(a, a, g, n);
    ScaleRegroups(g, g, Dot(a, a, n));
  }

  lemma RootScales(math: SeamMath, g: real, e: real)
    requires math.Lawful() && g > 0.0 && e >= 0.0
    ensures Scale(Scale(g, g), e) >= 0.0 && math.sqrt(Scale(Scale(g, g), e)) == Scale(g, math.sqrt(e))
  {
    var r, q := math.sqrt(e), Scale(Scale(g, g), e);
    assert q >= 0.0;
    var s := math.sqrt(q);
    assert s * s == q && r * r == e;
    assert Scale(g, r) >= 0.0;
    assert Scale(g, r) * Scale(g, r) == (g * g) * (r * r);
    SameRoot(s, Scale(g, r));
  }

  lemma SameRoot(a: real, b: real)
    requires a >= 0.0 && b >= 0.0 && a * a == b * b
    ensures a == b
  {
    if a < b {
      BiggerSquare(a, b);
    } else if b < a {
      BiggerSquare(b, a);
    }
  }

  /** Playing either leg louder or quieter leaves the correlation as it was. */
  lemma CorrelationIgnoresLevel(math: SeamMath, head: seq<real>, tail: seq<real>, g: real, h: real, n: nat)
    requires math.Lawful() && g > 0.0 && h > 0.0 && n <= |head| && n <= |tail|
    ensures LegCorrelation(math, TruePeak.ScaledBy(head, g), TruePeak.ScaledBy(tail, h), n)
            == LegCorrelation(math, head, tail, n)
  {
    var head', tail' := TruePeak.ScaledBy(head, g), TruePeak.ScaledBy(tail, h);
    var d, e, f := Dot(head, tail, n), Dot(head, head, n), Dot(tail, tail, n);
    DotScales(head, tail', g, n);
    DotScales(tail, head, h, n);
    EnergyScales(head, g, n);
    EnergyScales(tail, h, n);
    EnergyIsNotNegative(head, n);
    EnergyIsNotNegative(tail, n);
    RootScales(math, g, e);
    RootScales(math, h, f);
    var u, v := math.sqrt(e), math.sqrt(f);
    SameQuotient(d, u, v, g, h);
    CorrelationAt(math, d, e, f, u, v);
    CorrelationAt(math, Scale(g, Scale(h, d)), Scale(Scale(g, g), e), Scale(Scale(h, h), f), Scale(g, u), Scale(h, v));
    hide Dot, Scale, Correlation;
  }

  lemma SameQuotient(d: real, u: real, v: real, g: real, h: real)
    requires g > 0.0 && h > 0.0
    ensures Scale(g, u) * Scale(h, v) == 0.0 <==> u * v == 0.0
    ensures u * v != 0.0 ==> Scale(g, Scale(h, d)) / (Scale(g, u) * Scale(h, v)) == d / (u * v)
  {
    var k, s := g * h, u * v;
    assert k > 0.0;
    assert Scale(g, u) * Scale(h, v) == k * s && Scale(g, Scale(h, d)) == k * d;
    if s != 0.0 {
      CancelFactor(k, d, s);
    } else {
      assert k * 0.0 == 0.0;
    }
  }

  lemma CancelFactor(k: real, d: real, s: real)
    requires k > 0.0 && s != 0.0
    ensures k * s != 0.0 && (k * d) / (k * s) == d / s
  {
    var r := d / s;
    assert r * s == d;
    assert r * (k * s) == k * d;
  }

  /** So which law a seam gets does not depend on how loud its legs are, while both count as having
      energy; a leg turned upside down is never correlated where it was. */
  lemma SeamLawIgnoresLevel(math: SeamMath, head: seq<real>, tail: seq<real>, g: real, h: real)
    requires math.Lawful() && g > 0.0 && h > 0.0
    requires var n := if |head| <= |tail| then |head| else |tail|;
             && Dot(head, head, n) > EPSILON && Dot(tail, tail, n) > EPSILON
             && Scale(Scale(g, g), Dot(head, head, n)) > EPSILON && Scale(Scale(h, h), Dot(tail, tail, n)) > EPSILON
    ensures Decorrelated(math, TruePeak.ScaledBy(head, g), TruePeak.ScaledBy(tail, h)) == Decorrelated(math, head, tail)
    ensures !Decorrelated(math, head, tail) ==> Decorrelated(math, TruePeak.ScaledBy(head, -1.0), tail)
  {
    hide Dot, Scale, Correlation;
    var n := if |head| <= |tail| then |head| else |tail|;
    CorrelationIgnoresLevel(math, head, tail, g, h, n);
    EnergyScales(head, g, n);
    EnergyScales(tail, h, n);
    UpsideDown(math, head, tail, n);
  }

  lemma UpsideDown(math: SeamMath, head: seq<real>, tail: seq<real>, n: nat)
    requires n <= |head| && n <= |tail|
    ensures var flipped := TruePeak.ScaledBy(head, -1.0);
            && Dot(flipped, flipped, n) == Dot(head, head, n)
            && LegCorrelation(math, flipped, tail, n) == -LegCorrelation(math, head, tail, n)
  {
    DotScales(head, tail, -1.0, n);
    EnergyScales(head, -1.0, n);
    assert Scale(Scale(-1.0, -1.0), Dot(head, head, n)) == Dot(head, head, n);
    assert Scale(-1.0, Dot(head, tail, n)) == -Dot(head, tail, n);
    Opposite(math, Dot(head, tail, n), Dot(head, head, n), Dot(tail, tail, n));
    hide Dot, Scale, Correlation;
  }

  lemma Opposite(math: SeamMath, d: real, e: real, f: real)
    ensures Correlation(math, -d, e, f) == -Correlation(math, d, e, f)
  {
    var s := math.sqrt(e) * math.sqrt(f);
    if s != 0.0 {
      assert (-d) / s == -(d / s);
    }
  }
}
