/** What the gates of the loudness meter let through, block by block, and what the range then
    spans. */
module LoudnessGates {
  import opened Audio
  import opened Loudness

  // ---- windows by their sub-blocks -----------------------------------------------------------

  /** The energy of the `n` sub-blocks from `start` on. */
  function Span(sub: seq<real>, start: nat, n: nat): real
    requires start + n <= |sub|
  {
    if n == 0 then 0.0 else Span(sub, start, n - 1) + sub[start + n - 1]
  }

  lemma {:induction false} SpanIsSum(sub: seq<real>, start: nat, n: nat)
    requires start + n <= |sub|
    ensures Sum(sub[start..start + n]) == Span(sub, start, n)
  {
    if n == 0 {
    } else {
      SpanIsSum(sub, start, n - 1);
      assert sub[start..start + n][..n - 1] == sub[start..start + n - 1];
    }
  }

  /** Window `k` of length `n`, as its mean energy. */
  function WindowAt(sub: seq<real>, n: nat, k: nat): real
    requires n > 0 && k + n <= |sub|
  {
    Span(sub, k, n) / n as real
  }

  lemma SlidingAt(sub: seq<real>, n: nat, k: nat)
    requires n > 0 && k < |Sliding(sub, n)|
    ensures k + n <= |sub| && Sliding(sub, n)[k] == WindowAt(sub, n, k)
  {
    SpanIsSum(sub, k, n);
    assert |sub[k..k + n]| == n;
  }

  /** A short-term reading is there exactly when its window is full and audible, and is then the
      loudness of the window. */
  lemma ReadingPresentIff(db: Decibels, sub: seq<real>, n: nat)
    ensures var r := WindowLoudness(db, sub, n);
            && (r.Some? <==> 0 < n <= |sub| && WindowAt(sub, n, |sub| - n) > 0.0
                             && db.Lufs(WindowAt(sub, n, |sub| - n)) >= -70.0)
            && (r.Some? ==> r.value == db.Lufs(WindowAt(sub, n, |sub| - n)))
  {
    if 0 < n <= |sub| {
      SpanIsSum(sub, |sub| - n, n);
      assert sub[|sub| - n..] == sub[|sub| - n..|sub| - n + n];
    }
  }

  // ---- what passes ---------------------------------------------------------------------------------

  /** Window `k` is audible and no quieter than `floor`. */
  predicate Passes(db: Decibels, sub: seq<real>, n: nat, floor: real, k: nat)
    requires n > 0 && k + n <= |sub|
  {
    var e := WindowAt(sub, n, k);
    e > 0.0 && db.Lufs(e) >= -70.0 && db.Lufs(e) >= floor
  }

  /** How many of the first `m` windows pass, and the energy they hold between them. */
  function Passing(db: Decibels, sub: seq<real>, n: nat, floor: real, m: nat): nat
    requires n > 0 && m <= Max(0, |sub| - n + 1)
  {
    if m == 0 then 0 else Passing(db, sub, n, floor, m - 1) + if Passes(db, sub, n, floor, m - 1) then 1 else 0
  }

  function PassingEnergy(db: Decibels, sub: seq<real>, n: nat, floor: real, m: nat): real
    requires n > 0 && m <= Max(0, |sub| - n + 1)
  {
    if m == 0 then 0.0 else
      PassingEnergy(db, sub, n, floor, m - 1)
      + if Passes(db, sub, n, floor, m - 1) then WindowAt(sub, n, m - 1) else 0.0
  }

  /** The mean energy of all windows that pass. */
  function PassingMean(db: Decibels, sub: seq<real>, n: nat, floor: real): real
    requires n > 0 && Passing(db, sub, n, floor, Max(0, |sub| - n + 1)) > 0
  {
    var m := Max(0, |sub| - n + 1);
    PassingEnergy(db, sub, n, floor, m) / Passing(db, sub, n, floor, m) as real
  }

  /** Their loudness, in order. */
  function Levels(db: Decibels, sub: seq<real>, n: nat, floor: real, m: nat): seq<real>
    requires n > 0 && m <= Max(0, |sub| - n + 1)
  {
    if m == 0 then [] else
      Levels(db, sub, n, floor, m - 1)
      + if Passes(db, sub, n, floor, m - 1) then [db.Lufs(WindowAt(sub, n, m - 1))] else []
  }

  lemma LoudnessSnoc(db: Decibels, s: seq<real>, x: real)
    ensures LoudnessOf(db, s + [x]) == LoudnessOf(db, s) + [db.Lufs(x)]
  {}

  lemma KeptSnoc(s: seq<real>, x: real, p: real -> bool)
    ensures Kept(s + [x], p) == if p(x) then Kept(s, p) + [x] else Kept(s, p)
  {
    assert (s + [x])[..|s|] == s;
  }

  lemma SumSnoc(s: seq<real>, x: real)
    ensures Sum(s + [x]) == Sum(s) + x
  {
    assert (s + [x])[..|s|] == s;
  }

  lemma {:induction false} KeptTwice(s: seq<real>, p: real -> bool, q: real -> bool)
    ensures Kept(Kept(s, p), q) == Kept(s, x => p(x) && q(x))
  {
    if s == [] {
    } else {
      var rest, x := s[..|s| - 1], s[|s| - 1];
      KeptTwice(rest, p, q);
      KeptSnoc(Kept(rest, p), x, q);
    }
  }

  /** What a list filter keeps of the first `m` windows is what passes. */
  lemma {:induction false} KeptPasses(db: Decibels, sub: seq<real>, n: nat, floor: real, m: nat, p: real -> bool)
    requires n > 0 && m <= Max(0, |sub| - n + 1)
    requires forall e: real :: p(e) <==> e > 0.0 && db.Lufs(e) >= -70.0 && db.Lufs(e) >= floor
    ensures |Kept(Sliding(sub, n)[..m], p)| == Passing(db, sub, n, floor, m)
    ensures Sum(Kept(Sliding(sub, n)[..m], p)) == PassingEnergy(db, sub, n, floor, m)
    ensures LoudnessOf(db, Kept(Sliding(sub, n)[..m], p)) == Levels(db, sub, n, floor, m)
  {
    if m == 0 {
    } else {
      hide Sliding, WindowAt, Kept, Sum, Decibels.Lufs, LoudnessOf, Passes;
      KeptPasses(db, sub, n, floor, m - 1, p);
      var x, before := WindowAt(sub, n, m - 1), Kept(Sliding(sub, n)[..m - 1], p);
      KeptNext(sub, n, m - 1, p);
      PassesIf(db, sub, n, floor, m - 1);
      SumSnoc(before, x);
      LoudnessSnoc(db, before, x);
    }
  }

  lemma PassesIf(db: Decibels, sub: seq<real>, n: nat, floor: real, k: nat)
    requires n > 0 && k + n <= |sub|
    ensures var e := WindowAt(sub, n, k);
            Passes(db, sub, n, floor, k) <==> e > 0.0 && db.Lufs(e) >= -70.0 && db.Lufs(e) >= floor
  {}

  lemma KeptNext(sub: seq<real>, n: nat, m: nat, p: real -> bool)
    requires n > 0 && m < Max(0, |sub| - n + 1)
    ensures var x, before := WindowAt(sub, n, m), Kept(Sliding(sub, n)[..m], p);
            Kept(Sliding(sub, n)[..m + 1], p) == if p(x) then before + [x] else before
  {
    SlidingAt(sub, n, m);
    var w := Sliding(sub, n);
    assert w[..m + 1] == w[..m] + [w[m]];
    KeptSnoc(w[..m], w[m], p);
  }

  lemma AudiblePasses(db: Decibels, sub: seq<real>, n: nat)
    requires n > 0
    ensures var gated, m := AbsGated(db, Sliding(sub, n)), Max(0, |sub| - n + 1);
            && |gated| == Passing(db, sub, n, -70.0, m) && Sum(gated) == PassingEnergy(db, sub, n, -70.0, m)
  {
    KeptPasses(db, sub, n, -70.0, Max(0, |sub| - n + 1), e => db.Audible(e));
    assert Sliding(sub, n)[..Max(0, |sub| - n + 1)] == Sliding(sub, n);
  }

  lemma GatePasses(db: Decibels, sub: seq<real>, n: nat, floor: real)
    requires n > 0
    ensures var kept, m := Kept(AbsGated(db, Sliding(sub, n)), e => db.Lufs(e) >= floor), Max(0, |sub| - n + 1);
            && |kept| == Passing(db, sub, n, floor, m) && Sum(kept) == PassingEnergy(db, sub, n, floor, m)
            && LoudnessOf(db, kept) == Levels(db, sub, n, floor, m)
  {
    var p := e => db.Audible(e);
    var q := e => db.Lufs(e) >= floor;
    KeptTwice(Sliding(sub, n), p, q);
    KeptPasses(db, sub, n, floor, Max(0, |sub| - n + 1), x => p(x) && q(x));
    assert Sliding(sub, n)[..Max(0, |sub| - n + 1)] == Sliding(sub, n);
  }

  // ---- integrated loudness ----------------------------------------------------------------------------

  /** Integrated loudness is that of the mean over exactly the 400 ms blocks that are audible and
      at most 10 LU under the mean of the audible ones. */
  lemma IntegratedIsDoublyGated(db: Decibels, sub: seq<real>)
    requires db.Lawful()
    ensures var m := Max(0, |sub| - 3);
            if Passing(db, sub, 4, -70.0, m) == 0 then Integrated(db, sub) == None else
              var gate := db.Lufs(PassingMean(db, sub, 4, -70.0)) - 10.0;
              && Passing(db, sub, 4, gate, m) > 0
              && Integrated(db, sub) == Some(db.Lufs(PassingMean(db, sub, 4, gate)))
  {
    var gated := AbsGated(db, Sliding(sub, 4));
    AudiblePasses(db, sub, 4);
    if gated != [] {
      GatedArePositive(db, Sliding(sub, 4));
      RelativeGateRaisesMean(db, gated);
      GatePasses(db, sub, 4, db.Lufs(Mean(gated)) - 10.0);
    }
    hide Sliding, Kept, Sum, Passing, PassingEnergy, Decibels.Lufs, Decibels.Lawful, Decibels.Audible;
  }

  lemma GatedArePositive(db: Decibels, energies: seq<real>)
    ensures forall k | 0 <= k < |AbsGated(db, energies)| :: AbsGated(db, energies)[k] > 0.0
  {
    KeptMembers(energies, e => db.Audible(e));
    var gated := AbsGated(db, energies);
    forall k | 0 <= k < |gated|
      ensures gated[k] > 0.0
    {
      assert gated[k] in gated;
    }
  }

  /** It exceeds the loudness of the audible mean exactly when some audible block is more than
      10 LU under it: such a block is left out, and only such a block. */
  lemma RelativeGateActsIff(db: Decibels, sub: seq<real>)
    requires db.Lawful() && Passing(db, sub, 4, -70.0, Max(0, |sub| - 3)) > 0
    ensures var mean := PassingMean(db, sub, 4, -70.0);
            && Integrated(db, sub).Some? && Integrated(db, sub).value >= db.Lufs(mean)
            && (Integrated(db, sub).value > db.Lufs(mean)
                <==> exists k: nat :: k + 4 <= |sub| && Passes(db, sub, 4, -70.0, k)
                                      && db.Lufs(WindowAt(sub, 4, k)) < db.Lufs(mean) - 10.0)
  {
    var blocks := Sliding(sub, 4);
    var gated := AbsGated(db, blocks);
    AudiblePasses(db, sub, 4);
    GatedArePositive(db, blocks);
    IntegratedIsDoublyGated(db, sub);
    var mean := Mean(gated);
    assert mean == PassingMean(db, sub, 4, -70.0);
    var gate := db.Lufs(mean) - 10.0;
    var kept := Kept(gated, e => db.Lufs(e) >= gate);
    GatePasses(db, sub, 4, gate);
    hide Integrated, Kept, Sliding, Sum, Passing, PassingEnergy;
    PositiveMean(gated);
    GateRaises(db, gated, gate);
    if k: nat :| k + 4 <= |sub| && Passes(db, sub, 4, -70.0, k) && db.Lufs(WindowAt(sub, 4, k)) < gate {
      var i := LoudBlockIsGated(db, sub, k);
      assert Mean(kept) > mean;
    } else {
      forall i | 0 <= i < |gated|
        ensures db.Lufs(gated[i]) >= gate
      {
        var k := GatedIsBlock(db, sub, i);
        assert k + 4 <= |sub| && Passes(db, sub, 4, -70.0, k);
      }
      assert kept == gated;
    }
  }

  lemma LoudBlockIsGated(db: Decibels, sub: seq<real>, k: nat) returns (i: nat)
    requires k + 4 <= |sub| && Passes(db, sub, 4, -70.0, k)
    ensures i < |AbsGated(db, Sliding(sub, 4))| && AbsGated(db, Sliding(sub, 4))[i] == WindowAt(sub, 4, k)
  {
    SlidingAt(sub, 4, k);
    KeptMembers(Sliding(sub, 4), e => db.Audible(e));
    assert Sliding(sub, 4)[k] in AbsGated(db, Sliding(sub, 4));
    i :| 0 <= i < |AbsGated(db, Sliding(sub, 4))| && AbsGated(db, Sliding(sub, 4))[i] == Sliding(sub, 4)[k];
  }

  lemma GatedIsBlock(db: Decibels, sub: seq<real>, i: nat) returns (k: nat)
    requires i < |AbsGated(db, Sliding(sub, 4))|
    ensures k + 4 <= |sub| && Passes(db, sub, 4, -70.0, k) && AbsGated(db, Sliding(sub, 4))[i] == WindowAt(sub, 4, k)
  {
    var gated := AbsGated(db, Sliding(sub, 4));
    KeptMembers(Sliding(sub, 4), e => db.Audible(e));
    assert gated[i] in gated;
    k :| 0 <= k < |Sliding(sub, 4)| && Sliding(sub, 4)[k] == gated[i];
    SlidingAt(sub, 4, k);
  }

  /** A gate below the mean either keeps everything, or raises the mean. */
  lemma GateRaises(db: Decibels, gated: seq<real>, gate: real)
    requires db.Lawful() && gated != [] && Mean(gated) > 0.0 && gate <= db.Lufs(Mean(gated))
    requires forall k | 0 <= k < |gated| :: gated[k] > 0.0
    ensures var kept := Kept(gated, e => db.Lufs(e) >= gate);
            && ((forall k | 0 <= k < |gated| :: db.Lufs(gated[k]) >= gate) ==> kept == gated)
            && ((exists k :: 0 <= k < |gated| && db.Lufs(gated[k]) < gate) ==>
                  kept != [] && Mean(kept) > Mean(gated) && db.Lufs(Mean(kept)) > db.Lufs(Mean(gated)))
  {
    var q := e => db.Lufs(e) >= gate;
    var mean := Mean(gated);
    if forall k | 0 <= k < |gated| :: db.Lufs(gated[k]) >= gate {
      KeptAll(gated, q);
    } else {
      var k :| 0 <= k < |gated| && db.Lufs(gated[k]) < gate;
      forall i | 0 <= i < |gated| && !q(gated[i])
        ensures gated[i] < mean
      {
        if gated[i] >= mean {
          LouderIsMoreEnergy(db, mean, gated[i]);
        }
      }
      KeptExceedsMore(gated, q, mean, k);
      MeanBalances(gated);
      MeanAbove(Kept(gated, q), mean);
    }
  }

  lemma {:induction false} KeptAll(s: seq<real>, p: real -> bool)
    requires forall k | 0 <= k < |s| :: p(s[k])
    ensures Kept(s, p) == s
  {
    if s == [] {
    } else {
      KeptAll(s[..|s| - 1], p);
    }
  }

  lemma {:induction false} KeptExceedsMore(s: seq<real>, p: real -> bool, m: real, k: nat)
    requires forall i | 0 <= i < |s| :: !p(s[i]) ==> s[i] < m
    requires k < |s| && !p(s[k])
    ensures Excess(Kept(s, p), m) > Excess(s, m)
  {
    var rest, x := s[..|s| - 1], s[|s| - 1];
    KeptSnoc(rest, x, p);
    assert s == rest + [x];
    if p(x) {
      assert (Kept(rest, p) + [x])[..|Kept(rest, p)|] == Kept(rest, p);
      KeptExceedsMore(rest, p, m, k);
    } else {
      KeptExceeds(rest, p, m);
    }
  }

  lemma MeanAbove(s: seq<real>, m: real)
    requires Excess(s, m) > 0.0
    ensures s != [] && Mean(s) > m
  {
    ExcessIsSum(s, m);
    MeanAtLeast(s, m);
    MeanBalances(s);
  }

  // ---- loudness range ---------------------------------------------------------------------------------

  /** The range spans the 10th to the 95th percentile of the 3 s windows that are audible and at
      most 20 LU under the mean of the audible ones. */
  lemma RangeIsGatedSpread(db: Decibels, sub: seq<real>)
    requires db.Lawful()
    ensures var m := Max(0, |sub| - 29);
            if Passing(db, sub, 30, -70.0, m) == 0 then LoudnessRange(db, sub) == None else
              var gate := db.Lufs(PassingMean(db, sub, 30, -70.0)) - 20.0;
              var levels := Sort(Levels(db, sub, 30, gate, m));
              levels != [] && LoudnessRange(db, sub) == Some(Percentile(levels, 0.95) - Percentile(levels, 0.10))
  {
    hide Sliding, AbsGated, Mean, PassingMean, RangeGated, Levels, Percentile, Sort, LoudnessOf, Decibels.Lufs, Decibels.Lawful;
    var energies := AbsGated(db, Sliding(sub, 30));
    AudibleMean(db, sub, 30);
    if energies != [] {
      GatedArePositive(db, Sliding(sub, 30));
      RangeGateIsLevels(db, sub);
      RangeGateKeepsSome(db, energies);
      SortKeepsLength(RangeGated(db, LoudnessOf(db, energies)));
    }
  }

  lemma AudibleMean(db: Decibels, sub: seq<real>, n: nat)
    requires n > 0
    ensures var gated := AbsGated(db, Sliding(sub, n));
            && (gated != [] <==> Passing(db, sub, n, -70.0, Max(0, |sub| - n + 1)) > 0)
            && (gated != [] ==> Mean(gated) == PassingMean(db, sub, n, -70.0))
  {
    AudiblePasses(db, sub, n);
    hide AbsGated, Sliding, Sum, Passing, PassingEnergy;
  }

  lemma RangeGateIsLevels(db: Decibels, sub: seq<real>)
    requires db.Lawful() && AbsGated(db, Sliding(sub, 30)) != []
    ensures var energies := AbsGated(db, Sliding(sub, 30));
            RangeGated(db, LoudnessOf(db, energies))
            == Levels(db, sub, 30, db.Lufs(Mean(energies)) - 20.0, Max(0, |sub| - 29))
  {
    var energies := AbsGated(db, Sliding(sub, 30));
    GatedArePositive(db, Sliding(sub, 30));
    EnergyRoundTrips(db, energies);
    var gate := db.Lufs(Mean(energies)) - 20.0;
    RangeGatedAt(db, LoudnessOf(db, energies), gate);
    KeptOfLoudness(db, energies, gate);
    AbsGatedKept(db, sub, 30, gate);
    hide Sliding, Sum, Levels, AbsGated, RangeGated, EnergyOf, LoudnessOf, Decibels.Lufs, Decibels.Lawful, Kept;
  }

  lemma RangeGatedAt(db: Decibels, lufs: seq<real>, gate: real)
    requires lufs != [] && gate == db.Lufs(Mean(EnergyOf(db, lufs))) - 20.0
    ensures RangeGated(db, lufs) == Kept(lufs, l => l >= gate)
  {}

  lemma AbsGatedKept(db: Decibels, sub: seq<real>, n: nat, floor: real)
    requires n > 0
    ensures LoudnessOf(db, Kept(AbsGated(db, Sliding(sub, n)), e => db.Lufs(e) >= floor))
            == Levels(db, sub, n, floor, Max(0, |sub| - n + 1))
  {
    GatePasses(db, sub, n, floor);
  }

  lemma {:induction false} KeptOfLoudness(db: Decibels, s: seq<real>, floor: real)
    ensures Kept(LoudnessOf(db, s), l => l >= floor) == LoudnessOf(db, Kept(s, e => db.Lufs(e) >= floor))
  {
    if s == [] {
    } else {
      var rest, x := s[..|s| - 1], s[|s| - 1];
      KeptOfLoudness(db, rest, floor);
      assert LoudnessOf(db, s) == LoudnessOf(db, rest) + [db.Lufs(x)];
      KeptSnoc(LoudnessOf(db, rest), db.Lufs(x), l => l >= floor);
    }
  }

  // ---- a history of two levels ------------------------------------------------------------------------

  /** `p` sub-blocks at energy `a`, then `q` at `b`. */
  function TwoLevels(a: real, p: nat, b: real, q: nat): (r: seq<real>)
    ensures |r| == p + q
  {
    seq(p, _ => a) + seq(q, _ => b)
  }

  /** The energy of a window into it: so many sub-blocks of each. */
  lemma {:induction false} TwoLevelSpan(a: real, p: nat, b: real, q: nat, start: nat, n: nat)
    requires start + n <= p + q
    ensures var low := Max(0, Min(n, p - start));
            Span(TwoLevels(a, p, b, q), start, n) == Scale(low as real, a) + Scale((n - low) as real, b)
  {
    if n == 0 {
      assert Scale(0.0, a) == 0.0 && Scale(0.0, b) == 0.0;
    } else {
      TwoLevelSpan(a, p, b, q, start, n - 1);
      var low := Max(0, Min(n - 1, p - start));
      OneMore(low, a);
      OneMore(n - 1 - low, b);
      hide Scale;
    }
  }

  lemma OneMore(n: nat, x: real)
    ensures Scale((n + 1) as real, x) == Scale(n as real, x) + x
  {}

  lemma TwoLevelWindow(a: real, p: nat, b: real, q: nat, n: nat, k: nat)
    requires 0.0 < a < b && n > 0 && k + n <= p + q
    ensures a <= WindowAt(TwoLevels(a, p, b, q), n, k) <= b
    ensures k + n <= p ==> WindowAt(TwoLevels(a, p, b, q), n, k) == a
    ensures k >= p ==> WindowAt(TwoLevels(a, p, b, q), n, k) == b
    ensures k + 1 + n <= p + q ==> WindowAt(TwoLevels(a, p, b, q), n, k) <= WindowAt(TwoLevels(a, p, b, q), n, k + 1)
  {
    var low := Max(0, Min(n, p - k));
    TwoLevelSpan(a, p, b, q, k, n);
    MixedMean(a, b, low, n);
    if k + 1 + n <= p + q {
      TwoLevelSpan(a, p, b, q, k + 1, n);
      MixedMean(a, b, Max(0, Min(n, p - k - 1)), n);
      MixedFalls(a, b, Max(0, Min(n, p - k - 1)), low, n);
    }
    hide Span, TwoLevels, Scale;
  }

  lemma MixedMean(a: real, b: real, low: nat, n: nat)
    requires 0.0 < a < b && low <= n && n > 0
    ensures var mean := (Scale(low as real, a) + Scale((n - low) as real, b)) / n as real;
            a <= mean <= b && (low == n ==> mean == a) && (low == 0 ==> mean == b)
  {
    var sum, d := Scale(low as real, a) + Scale((n - low) as real, b), n as real;
    var mean := sum / d;
    assert Scale(mean, d) == sum;
    ScaleSwaps(a, d);
    ScaleSwaps(b, d);
    ScaleSums(low as real, (n - low) as real, a);
    ScaleSums(low as real, (n - low) as real, b);
    MoreIsMore(low as real, a, b);
    MoreIsMore((n - low) as real, a, b);
    assert Scale(a, d) <= sum <= Scale(b, d);
    NoLess(a, mean, d);
    NoLess(mean, b, d);
    if low == n {
      assert Scale(0.0, b) == 0.0;
      NoLess(mean, a, d);
    }
    if low == 0 {
      assert Scale(0.0, a) == 0.0;
      NoLess(b, mean, d);
    }
  }

  lemma MoreIsMore(n: real, a: real, b: real)
    requires n >= 0.0 && a <= b
    ensures Scale(n, a) <= Scale(n, b)
  {}

  lemma NoLess(a: real, b: real, d: real)
    requires d > 0.0 && Scale(a, d) <= Scale(b, d)
    ensures a <= b
  {
    if b < a {
      Less(b, a, d);
    }
  }

  lemma MixedFalls(a: real, b: real, fewer: nat, more: nat, n: nat)
    requires 0.0 < a < b && fewer <= more <= n && n > 0
    ensures (Scale(more as real, a) + Scale((n - more) as real, b)) / n as real
            <= (Scale(fewer as real, a) + Scale((n - fewer) as real, b)) / n as real
  {
    var x := Scale(more as real, a) + Scale((n - more) as real, b);
    var y := Scale(fewer as real, a) + Scale((n - fewer) as real, b);
    ScaleSums(fewer as real, (more - fewer) as real, a);
    ScaleSums((n - more) as real, (more - fewer) as real, b);
    MoreIsMore((more - fewer) as real, a, b);
    var d := n as real;
    assert Scale(x / d, d) == x && Scale(y / d, d) == y;
    NoLess(x / d, y / d, d);
  }

  /** A gate below every window passes them all. */
  lemma {:induction false} AllPass(db: Decibels, sub: seq<real>, n: nat, floor: real, m: nat, top: real)
    requires n > 0 && m <= Max(0, |sub| - n + 1)
    requires forall k: nat | k + n <= |sub| :: Passes(db, sub, n, floor, k) && WindowAt(sub, n, k) <= top
    ensures Passing(db, sub, n, floor, m) == m && PassingEnergy(db, sub, n, floor, m) <= Scale(m as real, top)
    ensures |Levels(db, sub, n, floor, m)| == m
    ensures forall k | 0 <= k < m :: Levels(db, sub, n, floor, m)[k] == db.Lufs(WindowAt(sub, n, k))
  {
    if m == 0 {
      assert Scale(0.0, top) == 0.0;
    } else {
      AllPass(db, sub, n, floor, m - 1, top);
      OneMore(m - 1, top);
      assert Passes(db, sub, n, floor, m - 1);
    }
  }

  lemma {:induction false} AscendingIsSorted(s: seq<real>)
    requires Ascending(s)
    ensures Sort(s) == s
  {
    if s == [] {
    } else {
      AscendingIsSorted(s[..|s| - 1]);
    }
  }

  /** A history that steps from one level up to another, at most 20 LU louder, with enough of each,
      ranges over exactly the step. */
  lemma TwoLevelRange(db: Decibels, a: real, p: nat, b: real, q: nat)
    requires db.Lawful() && 0.0 < a < b && db.Lufs(a) >= -70.0 && db.Lufs(b) - db.Lufs(a) <= 20.0
    requires p >= 30 && q >= 30
    requires 0.10 * (p + q - 30) as real <= (p - 30) as real && 0.95 * (p + q - 30) as real >= p as real
    ensures LoudnessRange(db, TwoLevels(a, p, b, q)) == Some(db.Lufs(b) - db.Lufs(a))
  {
    hide LoudnessRange, Levels, Passing, PassingMean, Sort, Percentile, Decibels.Lufs, Decibels.Lawful, TwoLevels;
    var sub, m := TwoLevels(a, p, b, q), p + q - 29;
    TwoLevelGate(db, a, p, b, q);
    RangeIsGatedSpread(db, sub);
    var gate := db.Lufs(PassingMean(db, sub, 30, -70.0)) - 20.0;
    TwoLevelsPass(db, a, p, b, q, gate);
    AllPass(db, sub, 30, gate, m, b);
    var levels := Levels(db, sub, 30, gate, m);
    LevelsAscend(db, a, p, b, q, levels);
    AscendingIsSorted(levels);
    hide WindowAt, Passes, Ascending;
    PercentileInRun(levels, 0.10, 0, p - 30);
    PercentileInRun(levels, 0.95, p, m - 1);
  }

  /** The relative gate lies below the quieter level. */
  lemma TwoLevelGate(db: Decibels, a: real, p: nat, b: real, q: nat)
    requires db.Lawful() && 0.0 < a < b && db.Lufs(a) >= -70.0 && db.Lufs(b) - db.Lufs(a) <= 20.0 && p >= 30 && q >= 30
    ensures var sub, m := TwoLevels(a, p, b, q), p + q - 29;
            Passing(db, sub, 30, -70.0, m) == m && db.Lufs(PassingMean(db, sub, 30, -70.0)) - 20.0 <= db.Lufs(a)
  {
    var sub, m := TwoLevels(a, p, b, q), p + q - 29;
    TwoLevelsPass(db, a, p, b, q, -70.0);
    AllPass(db, sub, 30, -70.0, m, b);
    MeanAtMost(PassingEnergy(db, sub, 30, -70.0, m), m, b);
    AudiblePasses(db, sub, 30);
    GatedArePositive(db, Sliding(sub, 30));
    PositiveMean(AbsGated(db, Sliding(sub, 30)));
    LouderIsMoreEnergy(db, PassingMean(db, sub, 30, -70.0), b);
    hide TwoLevels, Passing, PassingEnergy, Passes, Sliding, Kept, Sum, Decibels.Lufs, Decibels.Lawful;
  }

  lemma TwoLevelsPass(db: Decibels, a: real, p: nat, b: real, q: nat, floor: real)
    requires db.Lawful() && 0.0 < a < b && db.Lufs(a) >= -70.0 && floor <= db.Lufs(a)
    ensures forall k: nat | k + 30 <= p + q ::
              Passes(db, TwoLevels(a, p, b, q), 30, floor, k) && WindowAt(TwoLevels(a, p, b, q), 30, k) <= b
  {
    forall k: nat | k + 30 <= p + q
      ensures Passes(db, TwoLevels(a, p, b, q), 30, floor, k) && WindowAt(TwoLevels(a, p, b, q), 30, k) <= b
    {
      TwoLevelWindow(a, p, b, q, 30, k);
      LouderIsMoreEnergy(db, a, WindowAt(TwoLevels(a, p, b, q), 30, k));
    }
  }

  lemma MeanAtMost(sum: real, m: nat, top: real)
    requires m > 0 && sum <= Scale(m as real, top)
    ensures sum / m as real <= top
  {
    var d := m as real;
    assert Scale(sum / d, d) == sum;
    ScaleSwaps(d, top);
    NoLess(sum / d, top, d);
  }

  lemma LevelsAscend(db: Decibels, a: real, p: nat, b: real, q: nat, levels: seq<real>)
    requires db.Lawful() && 0.0 < a < b && p >= 30 && q >= 30 && |levels| == p + q - 29
    requires forall k | 0 <= k < |levels| :: levels[k] == db.Lufs(WindowAt(TwoLevels(a, p, b, q), 30, k))
    ensures Ascending(levels)
    ensures forall k | 0 <= k <= p - 30 :: levels[k] == db.Lufs(a)
    ensures forall k | p <= k < |levels| :: levels[k] == db.Lufs(b)
  {
    var sub := TwoLevels(a, p, b, q);
    forall k: nat | k < |levels|
      ensures (k <= p - 30 ==> levels[k] == db.Lufs(a)) && (k >= p ==> levels[k] == db.Lufs(b))
      ensures k + 1 < |levels| ==> levels[k] <= levels[k + 1]
    {
      TwoLevelWindow(a, p, b, q, 30, k);
      if k + 1 < |levels| {
        LouderIsMoreEnergy(db, WindowAt(sub, 30, k), WindowAt(sub, 30, k + 1));
      }
    }
    StepsAscend(levels, |levels|);
  }

  lemma {:induction false} StepsAscend(s: seq<real>, n: nat)
    requires n <= |s| && forall k: nat | k + 1 < |s| :: s[k] <= s[k + 1]
    ensures Ascending(s[..n])
    ensures n == |s| ==> Ascending(s)
  {
    if n == 0 {
    } else {
      StepsAscend(s, n - 1);
      var t := s[..n];
      forall i, j | 0 <= i < j < n
        ensures t[i] <= t[j]
      {
        if j == n - 1 && i < n - 2 {
          assert s[..n - 1][i] <= s[..n - 1][n - 2];
          assert s[n - 2] <= s[n - 2 + 1];
        } else if j < n - 1 {
          assert s[..n - 1][i] <= s[..n - 1][j];
        } else {
          assert s[i] <= s[i + 1];
        }
      }
      assert n == |s| ==> s[..n] == s;
    }
  }

  /** A percentile whose rank falls in a run of one value is that value. */
  lemma PercentileInRun(s: seq<real>, q: real, from: nat, to: nat)
    requires 0.0 <= q <= 1.0 && |s| > 1 && from <= to < |s|
    requires forall k | from <= k <= to :: s[k] == s[from]
    requires from as real <= Scale(q, (|s| - 1) as real) <= to as real
    ensures Percentile(s, q) == s[from]
  {
    var rank := RankOf(q, |s| - 1);
    var lo := rank.Floor;
    if lo == to {
      assert Scale(s[Min(lo + 1, |s| - 1)] - s[lo], 0.0) == 0.0;
    } else {
      assert s[lo] == s[from] && s[lo + 1] == s[from];
      assert Scale(0.0, rank - lo as real) == 0.0;
    }
  }
}
