/** The EBU R128 loudness meter: K-weighted energy in 100 ms sub-blocks, the two gates of
    Annex 1 of ITU-R BS.1770-4, and the loudness range of EBU Tech 3342. */
module Loudness {
  import opened Audio

  const ABSOLUTE_GATE_LUFS: real := -70.0
  const RELATIVE_GATE_OFFSET_LU: real := -10.0
  const LRA_RELATIVE_GATE_OFFSET_LU: real := -20.0
  const LOUDNESS_OFFSET: real := -0.691
  const SUBBLOCKS_PER_BLOCK: nat := 4
  const SUBBLOCKS_PER_SHORT_TERM: nat := 30
  // The history the live normaliser keeps.
  const RETAIN_SUBBLOCKS: nat := 64

  /** The logarithm and its inverse. */
  datatype Decibels = Decibels(log10: real -> real, pow10: real -> real) {
    ghost predicate Lawful() {
      && (forall x: real, y: real | 0.0 < x < y :: log10(x) < log10(y))
      && (forall x: real | x > 0.0 :: pow10(log10(x)) == x)
    }

    /** The laws of the logarithm that levels rest on. */
    ghost predicate Logarithm() {
      && Lawful()
      && (forall x: real :: pow10(x) > 0.0 && log10(pow10(x)) == x)
      && (forall x: real, y: real | x > 0.0 && y > 0.0 :: log10(Scale(x, y)) == log10(x) + log10(y))
    }

    /** A level in decibels as a factor on samples. */
    function Amplitude(level: real): real {
      pow10(level / 20.0)
    }

    function Lufs(energy: real): real {
      LOUDNESS_OFFSET + 10.0 * log10(energy)
    }

    predicate Audible(energy: real) {
      energy > 0.0 && Lufs(energy) >= ABSOLUTE_GATE_LUFS
    }
  }

  lemma LouderIsMoreEnergy(db: Decibels, a: real, b: real)
    requires db.Lawful() && 0.0 < a <= b
    ensures db.Lufs(a) <= db.Lufs(b)
  {}

  // ---- means -------------------------------------------------------------------------------

  function Sum(s: seq<real>): real {
    if s == [] then 0.0 else Sum(s[..|s| - 1]) + s[|s| - 1]
  }

  function Mean(s: seq<real>): real
    requires s != []
  {
    Sum(s) / |s| as real
  }

  function Kept(s: seq<real>, p: real -> bool): seq<real> {
    if s == [] then [] else
      var rest, x := Kept(s[..|s| - 1], p), s[|s| - 1];
      if p(x) then rest + [x] else rest
  }

  /** How far `s` lies above `m` in all. */
  function Excess(s: seq<real>, m: real): real {
    if s == [] then 0.0 else Excess(s[..|s| - 1], m) + (s[|s| - 1] - m)
  }

  lemma {:induction false} ExcessIsSum(s: seq<real>, m: real)
    ensures Excess(s, m) == Sum(s) - Scale(|s| as real, m)
  {
    if s == [] {
      assert Scale(0.0, m) == 0.0;
    } else {
      ExcessIsSum(s[..|s| - 1], m);
      ScaleSums((|s| - 1) as real, 1.0, m);
      assert Scale(1.0, m) == m;
      hide Scale;
    }
  }

  lemma MeanBalances(s: seq<real>)
    requires s != []
    ensures Excess(s, Mean(s)) == 0.0
  {
    ExcessIsSum(s, Mean(s));
    Quotient(Sum(s), |s| as real);
  }

  lemma Quotient(a: real, b: real)
    requires b > 0.0
    ensures Scale(b, a / b) == a
  {}

  lemma MeanAtLeast(s: seq<real>, m: real)
    requires s != [] && Excess(s, m) >= 0.0
    ensures Mean(s) >= m
  {
    ExcessIsSum(s, m);
    Quotient(Sum(s), |s| as real);
    var n, mean := |s| as real, Mean(s);
    ScaleSwaps(n, m);
    ScaleSwaps(n, mean);
    if mean < m {
      Less(mean, m, n);
      assert false;
    }
  }

  lemma Less(a: real, b: real, x: real)
    requires a < b && x > 0.0
    ensures Scale(a, x) < Scale(b, x)
  {}

  /** Dropping only elements below `m` never lowers the excess over it. */
  lemma {:induction false} KeptExceeds(s: seq<real>, p: real -> bool, m: real)
    requires forall k | 0 <= k < |s| :: !p(s[k]) ==> s[k] <= m
    ensures Excess(Kept(s, p), m) >= Excess(s, m)
  {
    if s == [] {
    } else {
      var rest, x := s[..|s| - 1], s[|s| - 1];
      KeptExceeds(rest, p, m);
      if p(x) {
        assert (Kept(rest, p) + [x])[..|Kept(rest, p)|] == Kept(rest, p);
      }
    }
  }

  /** Not everything lies below the mean. */
  lemma SomeReachMean(s: seq<real>) returns (k: nat)
    requires s != []
    ensures k < |s| && s[k] >= Mean(s)
  {
    MeanBalances(s);
    k := SomeReach(s, Mean(s));
  }

  lemma {:induction false} SomeReach(s: seq<real>, m: real) returns (k: nat)
    requires s != [] && Excess(s, m) >= 0.0
    ensures k < |s| && s[k] >= m
  {
    var last := |s| - 1;
    if s[last] >= m {
      k := last;
    } else {
      k := SomeReach(s[..last], m);
    }
  }

  lemma {:induction false} KeptMembers(s: seq<real>, p: real -> bool)
    ensures forall x :: x in Kept(s, p) <==> x in s && p(x)
  {
    if s == [] {
    } else {
      var rest, x := s[..|s| - 1], s[|s| - 1];
      KeptMembers(rest, p);
      assert s == rest + [x];
    }
  }

  // ---- windows ---------------------------------------------------------------------------------

  /** The mean energy of each run of `n` sub-blocks, one every 100 ms. */
  function Sliding(sub: seq<real>, n: nat): (r: seq<real>)
    requires n > 0
    ensures |r| == Max(0, |sub| - n + 1)
  {
    seq(Max(0, |sub| - n + 1), k requires 0 <= k < Max(0, |sub| - n + 1) => Mean(sub[k..k + n]))
  }

  function WindowEnergy(sub: seq<real>, n: nat): Option<real> {
    if n == 0 || |sub| < n then None else Some(Mean(sub[|sub| - n..]))
  }

  function WindowLoudness(db: Decibels, sub: seq<real>, n: nat): Option<real> {
    match WindowEnergy(sub, n)
    case None => None
    case Some(e) => if e <= 0.0 || db.Lufs(e) < ABSOLUTE_GATE_LUFS then None else Some(db.Lufs(e))
  }

  function Recent(sub: seq<real>, keep: nat): seq<real> {
    sub[Max(|sub| - Max(keep, 1), 0)..]
  }

  /** Bounding the history changes a window's reading exactly when the window is longer than
      what is kept and had enough audio to read. */
  lemma RetentionKeepsReadingIff(sub: seq<real>, keep: nat, n: nat)
    ensures WindowEnergy(Recent(sub, keep), n) == WindowEnergy(sub, n) <==> n <= Max(keep, 1) || n > |sub|
  {}

  /** The streaming short-term reading is the last of the gliding windows. */
  lemma WindowIsLastSlide(sub: seq<real>, n: nat)
    requires 0 < n <= |sub|
    ensures WindowEnergy(sub, n) == Some(Sliding(sub, n)[|sub| - n])
  {
    assert sub[|sub| - n..] == sub[|sub| - n..|sub| - n + n];
  }

  // ---- integrated loudness -------------------------------------------------------------------------

  function AbsGated(db: Decibels, energies: seq<real>): seq<real> {
    Kept(energies, e => db.Audible(e))
  }

  function RelGated(db: Decibels, gated: seq<real>): seq<real>
    requires gated != []
  {
    var gate := db.Lufs(Mean(gated)) + RELATIVE_GATE_OFFSET_LU;
    Kept(gated, e => db.Lufs(e) >= gate)
  }

  function Integrated(db: Decibels, sub: seq<real>): Option<real> {
    var gated := AbsGated(db, Sliding(sub, SUBBLOCKS_PER_BLOCK));
    if gated == [] then None
    else
      var kept := RelGated(db, gated);
      if kept == [] then None else Some(db.Lufs(Mean(kept)))
  }

  lemma PositiveMean(s: seq<real>)
    requires s != [] && forall k | 0 <= k < |s| :: s[k] > 0.0
    ensures Mean(s) > 0.0
  {
    var least := Least(s);
    ExcessOverFloor(s, s[least]);
    MeanAtLeast(s, s[least]);
  }

  lemma {:induction false} Least(s: seq<real>) returns (k: nat)
    requires s != []
    ensures k < |s| && forall i | 0 <= i < |s| :: s[k] <= s[i]
  {
    var last := |s| - 1;
    if last == 0 {
      return 0;
    }
    k := Least(s[..last]);
    if s[last] < s[k] {
      k := last;
    }
  }

  lemma {:induction false} ExcessOverFloor(s: seq<real>, m: real)
    requires forall k | 0 <= k < |s| :: s[k] >= m
    ensures Excess(s, m) >= 0.0
  {
    if s == [] {
    } else {
      ExcessOverFloor(s[..|s| - 1], m);
    }
  }

  /** The relative gate never empties the set, and only raises its mean. */
  lemma RelativeGateRaisesMean(db: Decibels, gated: seq<real>)
    requires db.Lawful() && gated != [] && forall k | 0 <= k < |gated| :: gated[k] > 0.0
    ensures RelGated(db, gated) != [] && Mean(RelGated(db, gated)) >= Mean(gated)
  {
    var mean := Mean(gated);
    var p := e => db.Lufs(e) >= db.Lufs(mean) + RELATIVE_GATE_OFFSET_LU;
    var gate := db.Lufs(mean) + RELATIVE_GATE_OFFSET_LU;
    var q := e => db.Lufs(e) >= gate;
    PositiveMean(gated);
    var k := SomeReachMean(gated);
    LouderIsMoreEnergy(db, mean, gated[k]);
    KeptMembers(gated, q);
    assert RelGated(db, gated) == Kept(gated, q);
    assert gated[k] in Kept(gated, q);
    forall i | 0 <= i < |gated| && !q(gated[i])
      ensures gated[i] <= mean
    {
      if gated[i] > mean {
        LouderIsMoreEnergy(db, mean, gated[i]);
      }
    }
    KeptExceeds(gated, q, mean);
    MeanBalances(gated);
    MeanAtLeast(Kept(gated, q), mean);
  }

  /** Integrated loudness is present exactly when some 400 ms block passes the absolute gate;
      it is then at least the loudness of the absolute-gated mean and at most that of some
      (so of the loudest) block. */
  lemma IntegratedIsBracketed(db: Decibels, sub: seq<real>)
    requires db.Lawful()
    ensures var blocks := Sliding(sub, SUBBLOCKS_PER_BLOCK);
            && (Integrated(db, sub).Some? <==> exists k :: 0 <= k < |blocks| && db.Audible(blocks[k]))
            && (Integrated(db, sub).Some? ==>
                  && AbsGated(db, blocks) != []
                  && db.Lufs(Mean(AbsGated(db, blocks))) <= Integrated(db, sub).value
                  && exists k :: 0 <= k < |blocks| && db.Audible(blocks[k]) && Integrated(db, sub).value <= db.Lufs(blocks[k]))
  {
    hide Mean, Kept, Sliding;
    var blocks := Sliding(sub, SUBBLOCKS_PER_BLOCK);
    var gated := AbsGated(db, blocks);
    KeptMembers(blocks, e => db.Audible(e));
    forall k | 0 <= k < |blocks| && db.Audible(blocks[k])
      ensures gated != []
    {
      assert blocks[k] in gated;
    }
    if gated != [] {
      forall k | 0 <= k < |gated|
        ensures gated[k] > 0.0
      {
        assert gated[k] in gated;
      }
      RelativeGateRaisesMean(db, gated);
      PositiveMean(gated);
      var kept := RelGated(db, gated);
      LouderIsMoreEnergy(db, Mean(gated), Mean(kept));
      var k := SomeReachMean(kept);
      LouderIsMoreEnergy(db, Mean(kept), kept[k]);
      var gate := db.Lufs(Mean(gated)) + RELATIVE_GATE_OFFSET_LU;
      KeptMembers(gated, e => db.Lufs(e) >= gate);
      assert kept[k] in kept && kept[k] in gated && kept[k] in blocks;
      var j :| 0 <= j < |blocks| && blocks[j] == kept[k];
    }
  }

  // ---- loudness range ----------------------------------------------------------------------------------

  predicate Ascending(s: seq<real>) {
    forall i, j | 0 <= i < j < |s| :: s[i] <= s[j]
  }

  function Insert(s: seq<real>, x: real): seq<real> {
    if s == [] || s[|s| - 1] <= x then s + [x] else Insert(s[..|s| - 1], x) + [s[|s| - 1]]
  }

  function Sort(s: seq<real>): seq<real> {
    if s == [] then [] else Insert(Sort(s[..|s| - 1]), s[|s| - 1])
  }

  lemma {:induction false} InsertAdds(s: seq<real>, x: real)
    ensures multiset(Insert(s, x)) == multiset(s) + multiset{x}
  {
    if s == [] || s[|s| - 1] <= x {
    } else {
      InsertAdds(s[..|s| - 1], x);
      assert s == s[..|s| - 1] + [s[|s| - 1]];
    }
  }

  lemma {:induction false} InsertStaysBelow(s: seq<real>, x: real, top: real)
    requires x <= top && forall i | 0 <= i < |s| :: s[i] <= top
    ensures forall i | 0 <= i < |Insert(s, x)| :: Insert(s, x)[i] <= top
  {
    if s == [] || s[|s| - 1] <= x {
    } else {
      InsertStaysBelow(s[..|s| - 1], x, top);
    }
  }

  lemma {:induction false} InsertSorts(s: seq<real>, x: real)
    requires Ascending(s)
    ensures Ascending(Insert(s, x))
  {
    if s == [] || s[|s| - 1] <= x {
    } else {
      InsertSorts(s[..|s| - 1], x);
      InsertStaysBelow(s[..|s| - 1], x, s[|s| - 1]);
    }
  }

  lemma {:induction false} SortSorts(s: seq<real>)
    ensures Ascending(Sort(s)) && multiset(Sort(s)) == multiset(s)
  {
    if s == [] {
    } else {
      SortSorts(s[..|s| - 1]);
      InsertSorts(Sort(s[..|s| - 1]), s[|s| - 1]);
      InsertAdds(Sort(s[..|s| - 1]), s[|s| - 1]);
      assert s == s[..|s| - 1] + [s[|s| - 1]];
    }
  }

  /** The linearly interpolated percentile of an ascending sequence. */
  function Percentile(sorted: seq<real>, q: real): real {
    if sorted == [] then 0.0
    else if |sorted| == 1 then sorted[0]
    else
      var last := |sorted| - 1;
      var clamped := if q < 0.0 then 0.0 else if q > 1.0 then 1.0 else q;
      AtRank(sorted, RankOf(clamped, last))
  }

  function RankOf(q: real, last: nat): (r: real)
    requires 0.0 <= q <= 1.0
    ensures 0.0 <= r <= last as real
  {
    RankInside(q, last as real);
    Scale(q, last as real)
  }

  lemma RankInside(q: real, last: real)
    requires 0.0 <= q <= 1.0 && last >= 0.0
    ensures 0.0 <= Scale(q, last) <= last
  {
    ScaleGrows(0.0, q, last);
    ScaleGrows(q, 1.0, last);
  }

  function AtRank(sorted: seq<real>, rank: real): real
    requires sorted != [] && 0.0 <= rank <= (|sorted| - 1) as real
  {
    var lo := Min(rank.Floor, |sorted| - 1);
    var hi := Min(lo + 1, |sorted| - 1);
    sorted[lo] + Scale(sorted[hi] - sorted[lo], rank - lo as real)
  }

  lemma Interpolates(d: real, t: real)
    requires d >= 0.0 && 0.0 <= t <= 1.0
    ensures 0.0 <= Scale(d, t) <= d
  {}

  /** An interpolated rank lies between its neighbours. */
  lemma BetweenNeighbours(s: seq<real>, rank: real)
    requires s != [] && Ascending(s) && 0.0 <= rank <= (|s| - 1) as real
    ensures var lo := rank.Floor; 0 <= lo < |s| && s[lo] <= AtRank(s, rank) <= s[Min(lo + 1, |s| - 1)]
  {
    var lo := rank.Floor;
    Interpolates(s[Min(lo + 1, |s| - 1)] - s[lo], rank - lo as real);
  }

  lemma AtRankIsMonotone(s: seq<real>, a: real, b: real)
    requires s != [] && Ascending(s) && 0.0 <= a <= b <= (|s| - 1) as real
    ensures AtRank(s, a) <= AtRank(s, b)
  {
    BetweenNeighbours(s, a);
    BetweenNeighbours(s, b);
    if a.Floor == b.Floor {
      var lo := a.Floor;
      var d := s[Min(lo + 1, |s| - 1)] - s[lo];
      ScaleSwaps(d, a - lo as real);
      ScaleSwaps(d, b - lo as real);
      ScaleGrows(a - lo as real, b - lo as real, d);
    }
  }

  /** Percentiles of an ascending sequence grow with the quantile and stay inside it. */
  lemma PercentileIsMonotone(s: seq<real>, p: real, q: real)
    requires s != [] && Ascending(s) && 0.0 <= p <= q <= 1.0
    ensures s[0] <= Percentile(s, p) <= Percentile(s, q) <= s[|s| - 1]
  {
    if |s| > 1 {
      var last := |s| - 1;
      ScaleGrows(p, q, last as real);
      BetweenNeighbours(s, RankOf(p, last));
      BetweenNeighbours(s, RankOf(q, last));
      AtRankIsMonotone(s, RankOf(p, last), RankOf(q, last));
    }
  }

  /** A whole rank is the element itself: the extremes are the smallest and the largest. */
  lemma PercentileHitsElements(s: seq<real>, k: nat)
    requires k < |s|
    ensures AtRank(s, k as real) == s[k]
    ensures Percentile(s, 0.0) == s[0] && Percentile(s, 1.0) == s[|s| - 1]
  {
    forall i: nat | i < |s|
      ensures AtRank(s, i as real) == s[i]
    {
      assert (i as real).Floor == i;
      var d := s[Min(i + 1, |s| - 1)] - s[i];
      assert Scale(d, 0.0) == 0.0;
    }
    if |s| > 1 {
      assert RankOf(0.0, |s| - 1) == 0 as real && RankOf(1.0, |s| - 1) == (|s| - 1) as real;
    }
  }

  /** A quantile outside the unit range is read at its nearer end; nothing reads as zero. */
  lemma PercentileClamps(s: seq<real>, q: real)
    ensures s == [] ==> Percentile(s, q) == 0.0
    ensures s != [] && q < 0.0 ==> Percentile(s, q) == s[0]
    ensures s != [] && q > 1.0 ==> Percentile(s, q) == s[|s| - 1]
  {
    if s != [] {
      PercentileHitsElements(s, 0);
    }
  }

  function LoudnessOf(db: Decibels, energies: seq<real>): (r: seq<real>)
    ensures |r| == |energies|
  {
    seq(|energies|, k requires 0 <= k < |energies| => db.Lufs(energies[k]))
  }

  function EnergyOf(db: Decibels, lufs: seq<real>): (r: seq<real>)
    ensures |r| == |lufs|
  {
    seq(|lufs|, k requires 0 <= k < |lufs| => db.pow10((lufs[k] - LOUDNESS_OFFSET) / 10.0))
  }

  /** The short-term loudness values that survive both gates. */
  function RangeGated(db: Decibels, lufs: seq<real>): seq<real>
    requires lufs != []
  {
    var gate := db.Lufs(Mean(EnergyOf(db, lufs))) + LRA_RELATIVE_GATE_OFFSET_LU;
    Kept(lufs, l => l >= gate)
  }

  function LoudnessRange(db: Decibels, sub: seq<real>): Option<real> {
    var lufs := LoudnessOf(db, AbsGated(db, Sliding(sub, SUBBLOCKS_PER_SHORT_TERM)));
    if lufs == [] then None
    else
      var gated := Sort(RangeGated(db, lufs));
      if gated == [] then None else Some(Percentile(gated, 0.95) - Percentile(gated, 0.10))
  }

  lemma EnergyRoundTrips(db: Decibels, energies: seq<real>)
    requires db.Lawful() && forall k | 0 <= k < |energies| :: energies[k] > 0.0
    ensures EnergyOf(db, LoudnessOf(db, energies)) == energies
  {}

  /** The range is present exactly when some 3 s window passes the absolute gate, and is never
      negative. */
  lemma RangeIsNonNegative(db: Decibels, sub: seq<real>)
    requires db.Lawful()
    ensures var windows := Sliding(sub, SUBBLOCKS_PER_SHORT_TERM);
            && (LoudnessRange(db, sub).Some? <==> exists k :: 0 <= k < |windows| && db.Audible(windows[k]))
            && (LoudnessRange(db, sub).Some? ==> LoudnessRange(db, sub).value >= 0.0)
  {
    hide Mean, Kept, Sliding, Sort, Percentile, EnergyOf;
    var windows := Sliding(sub, SUBBLOCKS_PER_SHORT_TERM);
    var energies := AbsGated(db, windows);
    KeptMembers(windows, e => db.Audible(e));
    forall k | 0 <= k < |windows| && db.Audible(windows[k])
      ensures energies != []
    {
      assert windows[k] in energies;
    }
    if energies != [] {
      assert energies[0] in energies;
      forall k | 0 <= k < |energies|
        ensures energies[k] > 0.0
      {
        assert energies[k] in energies;
      }
      var lufs := LoudnessOf(db, energies);
      RangeGateKeepsSome(db, energies);
      var gated := RangeGated(db, lufs);
      SortSorts(gated);
      SortKeepsLength(gated);
      PercentileIsMonotone(Sort(gated), 0.10, 0.95);
    }
  }

  lemma SortKeepsLength(s: seq<real>)
    ensures |Sort(s)| == |s|
  {
    SortSorts(s);
    assert |multiset(Sort(s))| == |multiset(s)|;
  }

  lemma RangeGateKeepsSome(db: Decibels, energies: seq<real>)
    requires db.Lawful() && energies != [] && forall k | 0 <= k < |energies| :: energies[k] > 0.0
    ensures RangeGated(db, LoudnessOf(db, energies)) != []
  {
    var lufs := LoudnessOf(db, energies);
    EnergyRoundTrips(db, energies);
    PositiveMean(energies);
    var k := SomeReachMean(energies);
    LouderIsMoreEnergy(db, Mean(energies), energies[k]);
    var gate := db.Lufs(Mean(EnergyOf(db, lufs))) + LRA_RELATIVE_GATE_OFFSET_LU;
    KeptMembers(lufs, l => l >= gate);
    assert lufs[k] in lufs;
    assert lufs[k] in RangeGated(db, lufs);
  }

  // ---- streaming ----------------------------------------------------------------------------------------

  /** One channel's K-weighting filter: its state and how a sample passes through it. */
  datatype KWeight<!F> = KWeight(init: F, step: (F, real) -> (F, real))

  function ChannelWeight(layout: ChannelLayout, channel: nat): real {
    match layout
    case Mono => if channel == 0 then 1.0 else 0.0
    case Stereo => if channel < 2 then 1.0 else 0.0
    case FivePointOne => if channel <= 2 then 1.0 else if channel == 4 || channel == 5 then 1.41 else 0.0
  }

  function SubblockLen(sampleRate: nat): (n: nat)
    ensures n >= 1
  {
    Max((sampleRate * 100 + 500) / 1000, 1)
  }

  /** Ten sub-blocks are a second, to the nearest frame each. */
  lemma SubblockIsATenth(sampleRate: nat)
    requires sampleRate >= 5
    ensures -5 <= 10 * SubblockLen(sampleRate) - sampleRate <= 5
  {}

  /** What a meter holds between frames. */
  datatype Meter<F> = Meter(filters: seq<F>, filled: nat, weightedSq: real, subblocks: seq<real>)

  /** The first `n` channels of a frame through their filters: the new states, and the
      frame's weighted energy. */
  function Weighed<F>(k: KWeight<F>, layout: ChannelLayout, filters: seq<F>, frame: seq<real>, n: nat): (r: (seq<F>, real))
    requires n <= |filters| == |frame|
    ensures |r.0| == |filters|
  {
    if n == 0 then (filters, 0.0) else
      var (states, energy) := Weighed(k, layout, filters, frame, n - 1);
      var (f, y) := k.step(filters[n - 1], frame[n - 1]);
      (states[n - 1 := f], energy + Scale(Scale(ChannelWeight(layout, n - 1), y), y))
  }

  function FrameEnergy<F>(k: KWeight<F>, layout: ChannelLayout, filters: seq<F>, frame: seq<real>): real
    requires |filters| == |frame|
  {
    Weighed(k, layout, filters, frame, |frame|).1
  }

  /** Channel `c` of a frame, once weighted. */
  function Weighted<F>(k: KWeight<F>, filters: seq<F>, frame: seq<real>, c: nat): real
    requires c < |filters| && c < |frame|
  {
    k.step(filters[c], frame[c]).1
  }

  /** The weights of the channels: one each for mono, stereo and the front of a surround layout, 1.41
      for its two surrounds, and none for its low-frequency channel. */
  lemma ChannelsWeigh<F>(k: KWeight<F>, format: AudioFormat, filters: seq<F>, frame: seq<real>)
    requires |filters| == |frame| == format.Channels()
    ensures var y := (c: nat) requires c < |frame| => Square(Weighted(k, filters, frame, c));
            FrameEnergy(k, format.layout, filters, frame)
            == match format.layout
               case Mono => y(0)
               case Stereo => y(0) + y(1)
               case FivePointOne => y(0) + y(1) + y(2) + 1.41 * y(4) + 1.41 * y(5)
  {
    hide Weighed, Weighted, Square;
    NoChannels(k, format.layout, filters, frame);
    match format.layout
    case Mono =>
      NextChannel(k, Mono, filters, frame, 0);
    case Stereo =>
      NextChannel(k, Stereo, filters, frame, 0);
      NextChannel(k, Stereo, filters, frame, 1);
    case FivePointOne =>
      NextChannel(k, FivePointOne, filters, frame, 0);
      NextChannel(k, FivePointOne, filters, frame, 1);
      NextChannel(k, FivePointOne, filters, frame, 2);
      NextChannel(k, FivePointOne, filters, frame, 3);
      NextChannel(k, FivePointOne, filters, frame, 4);
      NextChannel(k, FivePointOne, filters, frame, 5);
  }

  function FrameEnergyTo<F>(k: KWeight<F>, layout: ChannelLayout, filters: seq<F>, frame: seq<real>, n: nat): real
    requires n <= |filters| == |frame|
  {
    Weighed(k, layout, filters, frame, n).1
  }

  lemma NoChannels<F>(k: KWeight<F>, layout: ChannelLayout, filters: seq<F>, frame: seq<real>)
    requires |filters| == |frame|
    ensures FrameEnergyTo(k, layout, filters, frame, 0) == 0.0
  {}

  lemma NextChannel<F>(k: KWeight<F>, layout: ChannelLayout, filters: seq<F>, frame: seq<real>, n: nat)
    requires n < |filters| == |frame|
    ensures FrameEnergyTo(k, layout, filters, frame, n + 1)
            == FrameEnergyTo(k, layout, filters, frame, n)
               + Scale(ChannelWeight(layout, n), Square(Weighted(k, filters, frame, n)))
  {
    var y := Weighted(k, filters, frame, n);
    ScaleRegroups(ChannelWeight(layout, n), y, y);
  }

  function Pushed<F>(k: KWeight<F>, format: AudioFormat, m: Meter<F>, frame: seq<real>): (r: Meter<F>)
    requires |m.filters| == |frame|
    ensures |r.filters| == |m.filters|
  {
    var (states, energy) := Weighed(k, format.layout, m.filters, frame, |frame|);
    var len := SubblockLen(format.sampleRate);
    var acc := m.weightedSq + energy;
    if m.filled + 1 >= len then Meter(states, 0, 0.0, m.subblocks + [acc / len as real])
    else Meter(states, m.filled + 1, acc, m.subblocks)
  }

  function FrameAt(s: seq<real>, channels: nat, n: nat): (r: seq<real>)
    requires channels > 0 && n < |s| / channels
    ensures |r| == channels
  {
    FrameBounds(|s|, channels, n);
    s[n * channels..n * channels + channels]
  }

  /** The meter after the first `n` frames of a buffer. */
  function PushedAll<F>(k: KWeight<F>, format: AudioFormat, m: Meter<F>, s: seq<real>, n: nat): (r: Meter<F>)
    requires |m.filters| == format.Channels() && n <= |s| / format.Channels()
    ensures |r.filters| == |m.filters|
  {
    if n == 0 then m else Pushed(k, format, PushedAll(k, format, m, s, n - 1), FrameAt(s, format.Channels(), n - 1))
  }

  /** How a stream is cut into pushes does not matter. */
  lemma {:induction false} PushesCompose<F>(k: KWeight<F>, format: AudioFormat, m: Meter<F>, s: seq<real>, t: seq<real>, n: nat)
    requires |m.filters| == format.Channels()
    requires |s| % format.Channels() == 0 && |t| % format.Channels() == 0 && n <= |t| / format.Channels()
    ensures |s + t| / format.Channels() == |s| / format.Channels() + |t| / format.Channels()
    ensures PushedAll(k, format, m, s + t, |s| / format.Channels() + n)
            == PushedAll(k, format, PushedAll(k, format, m, s, |s| / format.Channels()), t, n)
  {
    hide FrameAt, Pushed;
    var C := format.Channels();
    WholeSum(|s|, |t|, C);
    if n == 0 {
      SamePrefix(k, format, m, s, t, |s| / C);
    } else {
      PushesCompose(k, format, m, s, t, n - 1);
      LaterFrame(s, t, C, n - 1);
      assert |s| / C + n - 1 == |s| / C + (n - 1);
    }
  }

  lemma LaterFrame(s: seq<real>, t: seq<real>, channels: nat, n: nat)
    requires channels > 0 && |s| % channels == 0 && |t| % channels == 0 && n < |t| / channels
    ensures |s| / channels + n < |s + t| / channels
    ensures FrameAt(s + t, channels, |s| / channels + n) == FrameAt(t, channels, n)
  {
    WholeSum(|s|, |t|, channels);
    FrameCount(|s|, channels);
    Distribute(|s| / channels, n, channels);
    FrameBounds(|t|, channels, n);
  }

  lemma {:induction false} SamePrefix<F>(k: KWeight<F>, format: AudioFormat, m: Meter<F>, s: seq<real>, t: seq<real>, n: nat)
    requires |m.filters| == format.Channels()
    requires n <= |s| / format.Channels() <= |s + t| / format.Channels()
    ensures PushedAll(k, format, m, s + t, n) == PushedAll(k, format, m, s, n)
  {
    if n == 0 {
    } else {
      SamePrefix(k, format, m, s, t, n - 1);
      FrameBounds(|s|, format.Channels(), n - 1);
      assert FrameAt(s + t, format.Channels(), n - 1) == FrameAt(s, format.Channels(), n - 1);
    }
  }

  /** The weighted energy of the first `n` frames. */
  function EnergyIn<F>(k: KWeight<F>, format: AudioFormat, m: Meter<F>, s: seq<real>, n: nat): real
    requires |m.filters| == format.Channels() && n <= |s| / format.Channels()
  {
    if n == 0 then 0.0 else
      EnergyIn(k, format, m, s, n - 1)
      + FrameEnergy(k, format.layout, PushedAll(k, format, m, s, n - 1).filters, FrameAt(s, format.Channels(), n - 1))
  }

  /** Frames and energy a meter accounts for: its finished sub-blocks and the one under way. */
  function FramesHeld<F>(m: Meter<F>, len: nat): nat {
    |m.subblocks| * len + m.filled
  }

  function EnergyHeld<F>(m: Meter<F>, len: nat): real {
    Scale(Sum(m.subblocks), len as real) + m.weightedSq
  }

  /** No frame and no energy is lost or counted twice at a sub-block boundary. */
  lemma {:induction false} NothingIsLost<F>(k: KWeight<F>, format: AudioFormat, m: Meter<F>, s: seq<real>, n: nat)
    requires |m.filters| == format.Channels() && n <= |s| / format.Channels()
    requires m.filled < SubblockLen(format.sampleRate)
    ensures var r, len := PushedAll(k, format, m, s, n), SubblockLen(format.sampleRate);
            && r.filled < len
            && FramesHeld(r, len) == FramesHeld(m, len) + n
            && EnergyHeld(r, len) == EnergyHeld(m, len) + EnergyIn(k, format, m, s, n)
  {
    hide Weighed, FrameAt, SubblockLen, Scale, Sum;
    if n == 0 {
    } else {
      NothingIsLost(k, format, m, s, n - 1);
      FrameIsHeld(k, format, PushedAll(k, format, m, s, n - 1), FrameAt(s, format.Channels(), n - 1));
    }
  }

  lemma FrameIsHeld<F>(k: KWeight<F>, format: AudioFormat, m: Meter<F>, frame: seq<real>)
    requires |m.filters| == |frame| && m.filled < SubblockLen(format.sampleRate)
    ensures var r, len := Pushed(k, format, m, frame), SubblockLen(format.sampleRate);
            && r.filled < len
            && FramesHeld(r, len) == FramesHeld(m, len) + 1
            && EnergyHeld(r, len) == EnergyHeld(m, len) + FrameEnergy(k, format.layout, m.filters, frame)
  {
    hide Weighed, SubblockLen, Scale;
    var len := SubblockLen(format.sampleRate);
    var acc := m.weightedSq + FrameEnergy(k, format.layout, m.filters, frame);
    if m.filled + 1 >= len {
      Distribute(|m.subblocks|, 1, len);
      assert (m.subblocks + [acc / len as real])[..|m.subblocks|] == m.subblocks;
      ScaleSums(Sum(m.subblocks), acc / len as real, len as real);
      Quotient(acc, len as real);
      ScaleSwaps(len as real, acc / len as real);
    }
  }

  // ---- bounded history over whole runs ------------------------------------------------------------------

  /** What a live consumer does with its meter: feed whole frames, bound the history. */
  datatype Use = Feed(samples: seq<real>) | Retain(keep: nat)

  function Used<F>(k: KWeight<F>, format: AudioFormat, m: Meter<F>, u: Use): (r: Meter<F>)
    requires |m.filters| == format.Channels()
    ensures |r.filters| == |m.filters|
  {
    match u
    case Feed(samples) => PushedAll(k, format, m, samples, |samples| / format.Channels())
    case Retain(keep) => m.(subblocks := Recent(m.subblocks, keep))
  }

  function AfterUses<F>(k: KWeight<F>, format: AudioFormat, m: Meter<F>, run: seq<Use>): Meter<F>
    requires |m.filters| == format.Channels()
    decreases |run|
  {
    if run == [] then m else AfterUses(k, format, Used(k, format, m, run[0]), run[1..])
  }

  /** The run with every retention taken out. */
  function Unbounded(run: seq<Use>): seq<Use> {
    if run == [] then [] else (if run[0].Feed? then [run[0]] else []) + Unbounded(run[1..])
  }

  /** `m` is `all` but for older sub-blocks it may have dropped, keeping at least `n`. */
  predicate Trails<F(==)>(m: Meter<F>, all: Meter<F>, n: nat) {
    && m.filters == all.filters && m.filled == all.filled && m.weightedSq == all.weightedSq
    && |m.subblocks| <= |all.subblocks|
    && m.subblocks == all.subblocks[|all.subblocks| - |m.subblocks|..]
    && (|m.subblocks| >= n || m.subblocks == all.subblocks)
  }

  lemma FrameKeepsTrailing<F>(k: KWeight<F>, format: AudioFormat, m: Meter<F>, all: Meter<F>, frame: seq<real>, n: nat)
    requires Trails(m, all, n) && |m.filters| == |frame|
    ensures Trails(Pushed(k, format, m, frame), Pushed(k, format, all, frame), n)
  {
    hide Weighed, SubblockLen;
    var x, y := Pushed(k, format, m, frame), Pushed(k, format, all, frame);
    if |x.subblocks| > |m.subblocks| {
      var last := x.subblocks[|m.subblocks|];
      SuffixGrows(m.subblocks, all.subblocks, last);
    }
  }

  lemma SuffixGrows(s: seq<real>, all: seq<real>, x: real)
    requires |s| <= |all| && s == all[|all| - |s|..]
    ensures s + [x] == (all + [x])[|all| - |s|..]
  {}

  lemma {:induction false} PushKeepsTrailing<F>(k: KWeight<F>, format: AudioFormat, m: Meter<F>, all: Meter<F>, s: seq<real>,
                                                frames: nat, n: nat)
    requires Trails(m, all, n) && |m.filters| == format.Channels() && frames <= |s| / format.Channels()
    ensures Trails(PushedAll(k, format, m, s, frames), PushedAll(k, format, all, s, frames), n)
  {
    hide Trails, Pushed, FrameAt;
    SameFilters(m, all, n);
    if frames == 0 {
    } else {
      PushKeepsTrailing(k, format, m, all, s, frames - 1, n);
      FrameKeepsTrailing(k, format, PushedAll(k, format, m, s, frames - 1), PushedAll(k, format, all, s, frames - 1),
                         FrameAt(s, format.Channels(), frames - 1), n);
    }
  }

  lemma SameFilters<F>(m: Meter<F>, all: Meter<F>, n: nat)
    requires Trails(m, all, n)
    ensures m.filters == all.filters
  {}

  lemma RetentionTrails<F>(m: Meter<F>, all: Meter<F>, keep: nat, n: nat)
    requires Trails(m, all, n) && n <= Max(keep, 1)
    ensures Trails(m.(subblocks := Recent(m.subblocks, keep)), all, n)
  {}

  lemma {:induction false} UsesKeepTrailing<F>(k: KWeight<F>, format: AudioFormat, m: Meter<F>, all: Meter<F>, run: seq<Use>, n: nat)
    requires Trails(m, all, n) && |m.filters| == format.Channels()
    requires forall i | 0 <= i < |run| && run[i].Retain? :: n <= Max(run[i].keep, 1)
    ensures |all.filters| == format.Channels()
    ensures Trails(AfterUses(k, format, m, run), AfterUses(k, format, all, Unbounded(run)), n)
    decreases |run|
  {
    hide Trails, PushedAll, Recent;
    SameFilters(m, all, n);
    if run == [] {
    } else {
      var next := Used(k, format, m, run[0]);
      match run[0]
      case Feed(samples) =>
        PushKeepsTrailing(k, format, m, all, samples, |samples| / format.Channels(), n);
        UsesKeepTrailing(k, format, next, Used(k, format, all, run[0]), run[1..], n);
        assert Unbounded(run)[0] == run[0] && Unbounded(run)[1..] == Unbounded(run[1..]);
      case Retain(keep) =>
        RetentionTrails(m, all, keep, n);
        UsesKeepTrailing(k, format, next, all, run[1..], n);
        assert Unbounded(run) == Unbounded(run[1..]);
    }
  }

  /** Over every run of pushes and retentions that keep at least the window, in any order, the
      window reads as if nothing had ever been dropped. */
  lemma RetentionNeverDisturbs<F>(k: KWeight<F>, format: AudioFormat, m: Meter<F>, run: seq<Use>, n: nat)
    requires |m.filters| == format.Channels()
    requires forall i | 0 <= i < |run| && run[i].Retain? :: n <= Max(run[i].keep, 1)
    ensures WindowEnergy(AfterUses(k, format, m, run).subblocks, n)
            == WindowEnergy(AfterUses(k, format, m, Unbounded(run)).subblocks, n)
  {
    UsesKeepTrailing(k, format, m, m, run, n);
    TrailingReadsTheSame(AfterUses(k, format, m, run), AfterUses(k, format, m, Unbounded(run)), n);
  }

  lemma TrailingReadsTheSame<F>(m: Meter<F>, all: Meter<F>, n: nat)
    requires Trails(m, all, n)
    ensures WindowEnergy(m.subblocks, n) == WindowEnergy(all.subblocks, n)
  {
    if 0 < n <= |m.subblocks| {
      assert m.subblocks[|m.subblocks| - n..] == all.subblocks[|all.subblocks| - n..];
    }
  }

  /** So the short-term reading the normaliser steers by is that of its whole run, though it
      keeps only `RETAIN_SUBBLOCKS` after every block. */
  lemma ShortTermSurvivesRetention<F>(k: KWeight<F>, format: AudioFormat, db: Decibels, m: Meter<F>, blocks: seq<seq<real>>)
    requires |m.filters| == format.Channels()
    ensures WindowLoudness(db, AfterUses(k, format, m, Retained(blocks)).subblocks, SUBBLOCKS_PER_SHORT_TERM)
            == WindowLoudness(db, AfterUses(k, format, m, Unbounded(Retained(blocks))).subblocks, SUBBLOCKS_PER_SHORT_TERM)
  {
    RetainedKeeps(blocks);
    RetentionNeverDisturbs(k, format, m, Retained(blocks), SUBBLOCKS_PER_SHORT_TERM);
  }

  /** Each block fed, then the history bounded. */
  function Retained(blocks: seq<seq<real>>): seq<Use> {
    if blocks == [] then [] else [Feed(blocks[0]), Retain(RETAIN_SUBBLOCKS)] + Retained(blocks[1..])
  }

  lemma {:induction false} RetainedKeeps(blocks: seq<seq<real>>)
    ensures forall i | 0 <= i < |Retained(blocks)| && Retained(blocks)[i].Retain? :: Retained(blocks)[i].keep == RETAIN_SUBBLOCKS
  {
    if blocks == [] {
    } else {
      RetainedKeeps(blocks[1..]);
      assert Retained(blocks)[2..] == Retained(blocks[1..]);
    }
  }

  class LoudnessMeter<F> {
    const format: AudioFormat
    const weighting: KWeight<F>
    const db: Decibels
    var filters: seq<F>
    var filled: nat
    var weightedSq: real
    var subblocks: seq<real>

    function View(): Meter<F>
      reads this
    {
      Meter(filters, filled, weightedSq, subblocks)
    }

    predicate Valid()
      reads this
    {
      |filters| == format.Channels()
    }

    constructor (format: AudioFormat, weighting: KWeight<F>, db: Decibels)
      ensures Valid() && this.format == format && this.weighting == weighting && this.db == db
      ensures View() == Meter(seq(format.Channels(), _ => weighting.init), 0, 0.0, [])
    {
      this.format, this.weighting, this.db := format, weighting, db;
      filters := seq(format.Channels(), _ => weighting.init);
      filled, weightedSq, subblocks := 0, 0.0, [];
    }

    /** Feeds whole frames; a ragged buffer is refused and changes nothing. */
    method PushInterleaved(samples: seq<real>) returns (r: Outcome)
      requires Valid()
      modifies this
      ensures Valid()
      ensures |samples| % format.Channels() != 0 ==>
                r == RaggedBlock(|samples|, format.Channels()) && View() == old(View())
      ensures |samples| % format.Channels() == 0 ==>
                && r == Done
                && View() == PushedAll(weighting, format, old(View()), samples, |samples| / format.Channels())
    {
      var channels := format.Channels();
      if |samples| % channels != 0 {
        return RaggedBlock(|samples|, channels);
      }
      for n := 0 to |samples| / channels
        invariant Valid() && View() == PushedAll(weighting, format, old(View()), samples, n)
      {
        PushFrame(FrameAt(samples, channels, n));
      }
      return Done;
    }

    method PushFrame(frame: seq<real>)
      requires Valid() && |frame| == format.Channels()
      modifies this
      ensures Valid() && View() == Pushed(weighting, format, old(View()), frame)
    {
      var len := SubblockLen(format.sampleRate);
      var weighed := 0.0;
      ghost var states := filters;
      for c := 0 to |frame|
        invariant Valid() && filled == old(filled) && weightedSq == old(weightedSq) && subblocks == old(subblocks)
        invariant (filters, weighed) == Weighed(weighting, format.layout, states, frame, c)
        invariant forall d | c <= d < |frame| :: filters[d] == states[d]
      {
        var (f, y) := weighting.step(filters[c], frame[c]);
        filters := filters[c := f];
        weighed := weighed + Scale(Scale(ChannelWeight(format.layout, c), y), y);
      }
      weightedSq := weightedSq + weighed;
      filled := filled + 1;
      if filled >= len {
        subblocks := subblocks + [weightedSq / len as real];
        weightedSq, filled := 0.0, 0;
      }
    }

    /** Keeps the most recent `keep` sub-blocks (at least one). */
    method RetainRecent(keep: nat)
      modifies this
      ensures View() == old(View()).(subblocks := Recent(old(subblocks), keep))
    {
      var bound := Max(keep, 1);
      if |subblocks| > bound {
        subblocks := subblocks[|subblocks| - bound..];
      }
    }

    /** Loudness of the most recent `n` sub-blocks, gated only absolutely. */
    method WindowReading(n: nat) returns (r: Option<real>)
      ensures r == WindowLoudness(db, subblocks, n)
    {
      if n == 0 || |subblocks| < n {
        return None;
      }
      var tail := subblocks[|subblocks| - n..];
      var sum := 0.0;
      for k := 0 to n
        invariant sum == Sum(tail[..k])
      {
        assert tail[..k + 1][..k] == tail[..k];
        sum := sum + tail[k];
      }
      assert tail[..n] == tail;
      var energy := sum / n as real;
      return if energy <= 0.0 || db.Lufs(energy) < ABSOLUTE_GATE_LUFS then None else Some(db.Lufs(energy));
    }

    /** Integrated loudness: both gates over the history. */
    method IntegratedLoudness() returns (r: Option<real>)
      ensures r == Integrated(db, subblocks)
    {
      hide Mean;
      var energies: seq<real> := [];
      for start := 0 to Max(0, |subblocks| - SUBBLOCKS_PER_BLOCK + 1)
        invariant energies == Sliding(subblocks, SUBBLOCKS_PER_BLOCK)[..start]
      {
        energies := energies + [Mean(subblocks[start..start + SUBBLOCKS_PER_BLOCK])];
      }
      assert energies == Sliding(subblocks, SUBBLOCKS_PER_BLOCK);
      var absGated := Filter(energies, e => db.Audible(e));
      if absGated == [] {
        return None;
      }
      var gate := db.Lufs(Mean(absGated)) + RELATIVE_GATE_OFFSET_LU;
      var relGated := Filter(absGated, e => db.Lufs(e) >= gate);
      return if relGated == [] then None else Some(db.Lufs(Mean(relGated)));
    }

    /** The loudness range over the sampled short-term windows. */
    method Range() returns (r: Option<real>)
      ensures r == LoudnessRange(db, subblocks)
    {
      hide Mean, Percentile, Sort;
      var windows := Sliding(subblocks, SUBBLOCKS_PER_SHORT_TERM);
      var lufs: seq<real> := [];
      for k := 0 to |windows|
        invariant lufs == LoudnessOf(db, AbsGated(db, windows[..k]))
      {
        assert windows[..k + 1][..k] == windows[..k];
        if db.Audible(windows[k]) {
          assert LoudnessOf(db, AbsGated(db, windows[..k + 1])) == lufs + [db.Lufs(windows[k])];
          lufs := lufs + [db.Lufs(windows[k])];
        }
      }
      assert windows[..|windows|] == windows;
      if lufs == [] {
        return None;
      }
      var gate := db.Lufs(Mean(EnergyOf(db, lufs))) + LRA_RELATIVE_GATE_OFFSET_LU;
      var gated := Filter(lufs, l => l >= gate);
      SortKeepsLength(gated);
      if gated == [] {
        return None;
      }
      var sorted := Sort(gated);
      return Some(Percentile(sorted, 0.95) - Percentile(sorted, 0.10));
    }
  }

  method Filter(s: seq<real>, p: real -> bool) returns (r: seq<real>)
    ensures r == Kept(s, p)
  {
    r := [];
    for k := 0 to |s|
      invariant r == Kept(s[..k], p)
    {
      assert s[..k + 1][..k] == s[..k];
      if p(s[k]) {
        r := r + [s[k]];
      }
    }
    assert s[..|s|] == s;
  }
}
