/** Exactly which cuts of a tick are heard, on any bus: shared stores, channels still silent, and
    fades that finish in the first part included. */
module BusCut {
  import opened Audio
  import opened Store
  import opened Mixer
  import opened BusModel
  import opened BusInvariant
  import opened BusRuns
  import opened BusSignal
  import opened BusShared

  // ---- the routes a tick leaves ----------------------------------------------------------------

  /** The routes whose points are not in `gone`, in order. */
  function Others<S>(routes: seq<(RoutePoint, S)>, gone: set<RoutePoint>): seq<(RoutePoint, S)> {
    if routes == [] then [] else
      var last := routes[|routes| - 1];
      if last.0 in gone then Others(routes[..|routes| - 1], gone) else Others(routes[..|routes| - 1], gone) + [last]
  }

  lemma OthersSnoc<S>(routes: seq<(RoutePoint, S)>, r: (RoutePoint, S), gone: set<RoutePoint>)
    ensures Others(routes + [r], gone) == if r.0 in gone then Others(routes, gone) else Others(routes, gone) + [r]
  {
    assert (routes + [r])[..|routes|] == routes;
  }

  lemma {:induction false} WithoutSnoc<S>(routes: seq<(RoutePoint, S)>, r: (RoutePoint, S), p: RoutePoint)
    ensures Without(routes + [r], p) == Without(routes, p) + if r.0 == p then [] else [r]
  {
    if routes == [] {
      assert [] + [r] == [r] && [r][1..] == [];
    } else {
      assert (routes + [r])[1..] == routes[1..] + [r];
      WithoutSnoc(routes[1..], r, p);
    }
  }

  lemma {:induction false} WithoutIsOthersOf<S>(routes: seq<(RoutePoint, S)>, p: RoutePoint)
    ensures Without(routes, p) == Others(routes, {p})
  {
    if routes == [] {
    } else {
      var rest, last := routes[..|routes| - 1], routes[|routes| - 1];
      WithoutIsOthersOf(rest, p);
      assert routes == rest + [last];
      WithoutSnoc(rest, last, p);
    }
  }

  lemma {:induction false} OthersTwice<S>(routes: seq<(RoutePoint, S)>, a: set<RoutePoint>, b: set<RoutePoint>)
    ensures Others(Others(routes, a), b) == Others(routes, a + b)
  {
    if routes == [] {
    } else {
      var rest, last := routes[..|routes| - 1], routes[|routes| - 1];
      OthersTwice(rest, a, b);
      if last.0 !in a {
        OthersSnoc(Others(rest, a), last, b);
      }
    }
  }

  /** The finished points of `todo`. */
  function Finished(m: Slots, todo: seq<RoutePoint>): set<RoutePoint> {
    set p | p in todo && FadeDone(m, p)
  }

  /** A sweep leaves exactly the other routes, in order. */
  lemma {:induction false} SweepLeavesOthers<S>(m: Slots, routes: seq<(RoutePoint, S)>, todo: seq<RoutePoint>)
    requires Matched(m, routes) && AllCarried(routes, todo)
    ensures Sweep(m, routes, todo).1 == Others(routes, Finished(m, todo))
    decreases |todo|
  {
    hide Sweep, Others, Without, Matched, FadeDone, Slots.RemoveInput;
    if todo == [] {
      SweepNothing(m, routes);
      NothingGone(routes);
      assert Finished(m, todo) == {};
    } else {
      var t, rest := todo[0], todo[1..];
      assert todo == [t] + rest;
      assert forall i | 0 <= i < |rest| :: rest[i] == todo[i + 1];
      SweepNext(m, routes, todo);
      if FadeDone(m, t) {
        SweepPastDone(m, routes, t, rest);
        SweepLeavesOthers(m.RemoveInput(t), Without(routes, t), rest);
        WithoutIsOthersOf(routes, t);
        OthersTwice(routes, {t}, Finished(m.RemoveInput(t), rest));
        assert {t} + Finished(m.RemoveInput(t), rest) == Finished(m, todo);
      } else {
        SweepLeavesOthers(m, routes, rest);
        assert Finished(m, rest) == Finished(m, todo);
      }
    }
  }

  lemma {:induction false} NothingGone<S>(routes: seq<(RoutePoint, S)>)
    ensures Others(routes, {}) == routes
  {
    if routes == [] {
    } else {
      NothingGone(routes[..|routes| - 1]);
      assert routes == routes[..|routes| - 1] + [routes[|routes| - 1]];
    }
  }

  lemma SweepPastDone<S>(m: Slots, routes: seq<(RoutePoint, S)>, t: RoutePoint, rest: seq<RoutePoint>)
    requires Matched(m, routes) && AllCarried(routes, [t] + rest)
    ensures Matched(m.RemoveInput(t), Without(routes, t)) && AllCarried(Without(routes, t), rest)
    ensures forall p | p in rest :: FadeDone(m.RemoveInput(t), p) == FadeDone(m, p)
  {
    var todo := [t] + rest;
    assert todo[0] == t && forall i | 0 <= i < |rest| :: rest[i] == todo[i + 1];
    RemoveKeepsMatched(m, routes, t);
    forall i | 0 <= i < |rest|
      ensures Carries(Without(routes, t), rest[i]) && FadeDone(m.RemoveInput(t), rest[i]) == FadeDone(m, rest[i])
    {
      CarriedAfterRemoval(m, routes, t, rest[i]);
    }
  }

  /** How many of the first `j` routes read `s` and are not gone. */
  function AheadKept<S(==)>(routes: seq<(RoutePoint, S)>, gone: set<RoutePoint>, j: nat, s: S): nat
    requires j <= |routes|
  {
    if j == 0 then 0 else
      AheadKept(routes, gone, j - 1, s) + if routes[j - 1].1 == s && routes[j - 1].0 !in gone then 1 else 0
  }

  /** Where route `j` stands among those that are not gone. */
  function Rank<S>(routes: seq<(RoutePoint, S)>, gone: set<RoutePoint>, j: nat): nat
    requires j <= |routes|
  {
    |Others(routes[..j], gone)|
  }

  lemma {:induction false} OthersPrefix<S>(routes: seq<(RoutePoint, S)>, gone: set<RoutePoint>, j: nat)
    requires j <= |routes|
    ensures Others(routes[..j], gone) <= Others(routes, gone)
    decreases |routes| - j
  {
    if j == |routes| {
      assert routes[..j] == routes;
    } else {
      assert routes[..j + 1] == routes[..j] + [routes[j]];
      OthersSnoc(routes[..j], routes[j], gone);
      OthersPrefix(routes, gone, j + 1);
    }
  }

  lemma KeptAt<S>(routes: seq<(RoutePoint, S)>, gone: set<RoutePoint>, j: nat)
    requires j < |routes| && routes[j].0 !in gone
    ensures Rank(routes, gone, j) < |Others(routes, gone)| && Others(routes, gone)[Rank(routes, gone, j)] == routes[j]
  {
    assert routes[..j + 1] == routes[..j] + [routes[j]];
    OthersSnoc(routes[..j], routes[j], gone);
    OthersPrefix(routes, gone, j + 1);
  }

  /** Every route that is left stood somewhere before. */
  lemma {:induction false} KeptFrom<S>(routes: seq<(RoutePoint, S)>, gone: set<RoutePoint>, i: nat) returns (j: nat)
    requires i < |Others(routes, gone)|
    ensures j < |routes| && routes[j].0 !in gone && Rank(routes, gone, j) == i
  {
    var n := |routes| - 1;
    if i < |Others(routes[..n], gone)| {
      j := KeptFrom(routes[..n], gone, i);
      assert routes[..n][..j] == routes[..j];
    } else {
      j := n;
    }
  }

  lemma NoneOfNothing<S>(gone: set<RoutePoint>)
    ensures Others<S>([], gone) == []
  {}

  lemma {:induction false} AheadOthers<S>(routes: seq<(RoutePoint, S)>, gone: set<RoutePoint>, j: nat, s: S)
    requires j <= |routes|
    ensures Rank(routes, gone, j) <= |Others(routes, gone)|
    ensures Ahead(Others(routes, gone), Rank(routes, gone, j), s) == AheadKept(routes, gone, j, s)
  {
    hide Others;
    OthersPrefix(routes, gone, j);
    if j == 0 {
      assert routes[..0] == [];
      NoneOfNothing<S>(gone);
    } else {
      AheadOthers(routes, gone, j - 1, s);
      assert routes[..j] == routes[..j - 1] + [routes[j - 1]];
      OthersSnoc(routes[..j - 1], routes[j - 1], gone);
      if routes[j - 1].0 !in gone {
        KeptAt(routes, gone, j - 1);
      }
    }
  }

  lemma {:induction false} KeptGrows<S>(routes: seq<(RoutePoint, S)>, gone: set<RoutePoint>, i: nat, j: nat, s: S)
    requires i <= j <= |routes|
    ensures AheadKept(routes, gone, i, s) <= AheadKept(routes, gone, j, s)
    ensures i < j && routes[i].1 == s && routes[i].0 !in gone ==>
              AheadKept(routes, gone, i, s) < AheadKept(routes, gone, j, s)
    decreases j - i
  {
    if i == j {
    } else {
      KeptGrows(routes, gone, i, j - 1, s);
    }
  }

  // ---- the second part of a cut tick ---------------------------------------------------------

  /** The fades that finish within the first `frames` frames. */
  ghost function GoneBy<S>(c: Setup, b: Bus<S>, frames: nat): set<RoutePoint>
    requires Stored(b)
  {
    Finished(Advanced(c, b, frames), b.fading)
  }

  /** Where route `j` reads in a tick of `rest` frames, after one of `first`. */
  ghost function CutAt<S>(c: Setup, b: Bus<S>, first: nat, rest: nat, j: nat): int
    requires Stored(b) && j < |b.routes|
  {
    var s := b.routes[j].1;
    Later(b.stores[s].cursor, Ahead(b.routes, |b.routes|, s), first, AheadKept(b.routes, GoneBy(c, b, first), j, s), rest)
  }

  /** A cursor moved by `all` reads of `first` frames and `kept` of `rest`. */
  function Later(cursor: int, all: nat, first: nat, kept: nat, rest: nat): int {
    cursor + all * first + kept * rest
  }

  /** The fades that finish do not depend on what the stores hold. */
  lemma GoneIgnoresWindows<S>(c: Setup, b: Bus<S>, frames: nat, w: map<S, RingSnapshot>)
    requires BusInv(b)
    ensures Stored(b) && GoneBy(c, Holding(b, w), frames) == GoneBy(c, b, frames)
  {
    var h := Holding(b, w);
    HoldingKeepsInv(b, w);
    AdvancedStrips(c, b, frames);
    AdvancedStrips(c, h, frames);
    var (m, m') := (Advanced(c, b, frames), Advanced(c, h, frames));
    hide Advanced, Holding, Matched, Fading;
    forall p
      ensures FadeDone(m', p) == FadeDone(m, p)
    {
      SameRamps(c, b.mixer, m, m', p, frames);
    }
  }

  lemma SameRamps(c: Setup, b: Slots, m: Slots, m': Slots, p: RoutePoint, frames: nat)
    requires |b.slots| == |b.generations| && SameShape(b, m) && SameShape(b, m')
    requires forall x | 0 <= x < |m.slots| && m.slots[x].Some? ::
               m.slots[x].value == b.slots[x].value.Advance(c.trig, frames).(latest := m.slots[x].value.latest)
    requires forall x | 0 <= x < |m'.slots| && m'.slots[x].Some? ::
               m'.slots[x].value == b.slots[x].value.Advance(c.trig, frames).(latest := m'.slots[x].value.latest)
    ensures FadeDone(m', p) == FadeDone(m, p)
  {
    hide Strip.Advance;
  }

  lemma CutIgnoresWindows<S>(c: Setup, b: Bus<S>, first: nat, rest: nat, j: nat, w: map<S, RingSnapshot>)
    requires BusInv(b) && j < |b.routes|
    ensures Stored(b) && Stored(Holding(b, w)) && CutAt(c, Holding(b, w), first, rest, j) == CutAt(c, b, first, rest, j)
  {
    InvIsStored(b);
    HoldingKeepsInv(b, w);
    GoneIgnoresWindows(c, b, first, w);
    hide BusInv, GoneBy;
  }

  /** What a bus is after a tick of `frames` frames: its routes are those whose fades have not
      finished, and every store they read has moved by all its readers. */
  lemma AfterFirst<S>(c: Setup, b: Bus<S>, frames: nat)
    requires BusInv(b) && AtFormat(c, b)
    ensures Stored(b)
    ensures var t := Mix(c, b, frames);
            && BusInv(t) && AtFormat(c, t) && t.routes == Others(b.routes, GoneBy(c, b, frames))
            && |t.mixer.slots| == |b.mixer.slots|
            && forall s | s in t.stores :: s in b.stores
                 && t.stores[s] == b.stores[s].(cursor := b.stores[s].cursor + Ahead(b.routes, |b.routes|, s) * frames)
  {
    InvIsStored(b);
    MixKeepsInv(c, b, frames);
    RoutesAfterMix(c, b, frames);
    PullKeepsFormats(c, b, frames, |b.routes|);
    hide BusInv, Sweep, Others, Pull, Advanced, GoneBy;
    var t, pulled := Mix(c, b, frames), Pull(c, b, frames, |b.routes|);
    forall s | s in t.stores
      ensures s in b.stores
      ensures t.stores[s] == b.stores[s].(cursor := b.stores[s].cursor + Ahead(b.routes, |b.routes|, s) * frames)
    {
      PullMovesCursor(c, b, frames, |b.routes|, s);
    }
  }

  lemma RoutesAfterMix<S>(c: Setup, b: Bus<S>, frames: nat)
    requires BusInv(b)
    ensures Stored(b) && Mix(c, b, frames).routes == Others(b.routes, GoneBy(c, b, frames))
    ensures |Mix(c, b, frames).mixer.slots| == |b.mixer.slots|
  {
    MixIsSweep(c, b, frames);
    AdvancedStrips(c, b, frames);
    hide Advanced, Others, Matched;
    SweepLeavesOthers(Advanced(c, b, frames), b.routes, b.fading);
  }

  // ---- what is heard on either side --------------------------------------------------------------

  lemma CutGain<S>(c: Setup, h: Bus<S>, first: nat, j: nat, f: nat)
    requires BusInv(h) && j < |h.routes| && Stored(h) && h.routes[j].0 !in GoneBy(c, h, first)
    ensures h.mixer.Names(h.routes[j].0) && Mix(c, h, first).mixer.Names(h.routes[j].0)
    ensures Mix(c, h, first).mixer.slots[h.routes[j].0.input].value.GainAt(c.trig, f) == RouteGain(c, h, j, first + f)
  {
    NamedRoute(h, j);
    KeptIsNotSwept(c, h, first, j);
    MixedStrip(c, h, first, h.routes[j].0);
    hide BusInv, Mix, GoneBy, Advanced, Swept;
    AdvanceShiftsGain(c.trig, h.mixer.slots[h.routes[j].0.input].value, first, f);
  }

  lemma CutReads<S>(c: Setup, h: Bus<S>, first: nat, rest: nat, j: nat)
    requires BusInv(h) && AtFormat(c, h) && j < |h.routes| && Stored(h) && h.routes[j].0 !in GoneBy(c, h, first)
    ensures var (t, i, s) := (Mix(c, h, first), Rank(h.routes, GoneBy(c, h, first), j), h.routes[j].1);
            && BusInv(t) && Stored(t) && i < |t.routes| && t.routes[i] == h.routes[j]
            && ReadsAt(t, rest, i) == CutAt(c, h, first, rest, j)
            && t.stores[s].window == h.stores[s].window
  {
    AfterFirst(c, h, first);
    var (t, gone) := (Mix(c, h, first), GoneBy(c, h, first));
    InvIsStored(t);
    KeptAt(h.routes, gone, j);
    AheadOthers(h.routes, gone, j, h.routes[j].1);
    hide BusInv, Mix, GoneBy, Others, Rank, Ahead, AheadKept;
    assert t.routes[Rank(h.routes, gone, j)].1 in t.stores;
  }

  /** Sample `k` from frame `at` on. */
  function SampleAt(w: RingSnapshot, channels: nat, at: int, k: nat): real {
    w.At(channels, at * channels + k)
  }

  lemma RouteHearsSample<S>(c: Setup, b: Bus<S>, frames: nat, i: nat, k: nat)
    requires BusInv(b) && i < |b.routes|
    ensures b.mixer.Names(b.routes[i].0) && Stored(b)
    ensures RouteHears(c, b, frames, i, k)
            == Scale(b.mixer.slots[b.routes[i].0.input].value.GainAt(c.trig, k / c.C()),
                     SampleAt(b.stores[b.routes[i].1].window, c.C(), ReadsAt(b, frames, i), k))
  {
    NamedRoute(b, i);
    InvIsStored(b);
    hide BusInv, ReadsAt;
  }

  /** What route `j` adds to sample `k` of the rest of a cut tick, as a function of the bus before. */
  ghost function CutValue<S>(c: Setup, h: Bus<S>, first: nat, rest: nat, j: nat, k: nat): real
    requires Stored(h) && j < |h.routes|
  {
    Scale(RouteGain(c, h, j, first + k / c.C()),
          SampleAt(h.stores[h.routes[j].1].window, c.C(), CutAt(c, h, first, rest, j), k))
  }

  /** What it adds to the same sample of the tick taken whole. */
  ghost function WholeValue<S>(c: Setup, h: Bus<S>, first: nat, n: nat, j: nat, k: nat): real
    requires Stored(h) && j < |h.routes|
  {
    Scale(RouteGain(c, h, j, first + k / c.C()),
          SampleAt(h.stores[h.routes[j].1].window, c.C(), ReadsAt(h, n, j) + first, k))
  }

  lemma CutHeard<S>(c: Setup, h: Bus<S>, first: nat, rest: nat, j: nat, k: nat, t: Bus<S>, i: nat)
    requires BusInv(h) && AtFormat(c, h) && j < |h.routes| && Stored(h) && h.routes[j].0 !in GoneBy(c, h, first)
    requires t == Mix(c, h, first) && i == Rank(h.routes, GoneBy(c, h, first), j)
    ensures BusInv(t) && i < |t.routes| && t.routes[i] == h.routes[j]
    ensures RouteHears(c, t, rest, i, k) == CutValue(c, h, first, rest, j, k)
  {
    hide BusInv, Mix, GoneBy, Rank, RouteGain, RouteHears, CutAt, ReadsAt, SampleAt, Stored, AtFormat;
    CutReads(c, h, first, rest, j);
    CutGain(c, h, first, j, k / c.C());
    RouteHearsSample(c, t, rest, i, k);
    assert h.routes[j].1 in h.stores by {
      InvIsStored(h);
      StoredRoute(h, j);
    }
  }

  lemma StoredRoute<S>(b: Bus<S>, j: nat)
    requires Stored(b) && j < |b.routes|
    ensures b.routes[j].1 in b.stores
  {}

  lemma NamedRoute<S>(b: Bus<S>, j: nat)
    requires BusInv(b) && j < |b.routes|
    ensures b.mixer.Names(b.routes[j].0)
  {}

  lemma KeptIsNotSwept<S>(c: Setup, b: Bus<S>, frames: nat, j: nat)
    requires BusInv(b) && j < |b.routes| && Stored(b)
    ensures b.routes[j].0 !in GoneBy(c, b, frames) <==> !Swept(Advanced(c, b, frames), b.fading, b.routes[j].0)
  {
    hide BusInv, Advanced, FadeDone;
  }

  /** A fade that has finished is not heard any more. */
  lemma GoneIsSilent<S>(c: Setup, b: Bus<S>, first: nat, j: nat, f: nat)
    requires BusInv(b) && FadesOut(b) && j < |b.routes| && Stored(b) && b.routes[j].0 in GoneBy(c, b, first) && f >= first
    ensures RouteGain(c, b, j, f) == 0.0
  {
    KeptIsNotSwept(c, b, first, j);
    SweptWasFading(c, b, first, b.routes[j].0);
    var strip := b.mixer.slots[b.routes[j].0.input].value;
    hide BusInv, FadesOut, GoneBy, Advanced;
    FinishedIsSilent(c, strip, first, f);
  }

  lemma FinishedIsSilent(c: Setup, strip: Strip, first: nat, f: nat)
    requires strip.ramp.Some? && strip.ramp.value.end == 0.0 && strip.Advance(c.trig, first).ramp.None? && f >= first
    ensures strip.GainAt(c.trig, f) == 0.0
  {
    assert strip.ramp.value.EnvelopeAt(c.trig, strip.ramp.value.done + f) == 0.0;
    assert Scale(strip.gain, 0.0) == 0.0;
  }

  lemma WholeHeard<S>(c: Setup, h: Bus<S>, n: nat, first: nat, j: nat, k: nat)
    requires BusInv(h) && j < |h.routes| && Stored(h)
    ensures first * c.C() >= 0
    ensures RouteHears(c, h, n, j, first * c.C() + k) == WholeValue(c, h, first, n, j, k)
  {
    NamedRoute(h, j);
    WholeFrames(first, c.C());
    SplitOffset(first, k, c.C());
    Distribute(ReadsAt(h, n, j), first, c.C());
    hide BusInv, ReadsAt;
  }

  lemma {:induction false} SumsAlike<S>(c: Setup, a: Bus<S>, af: nat, ak: nat, b: Bus<S>, bf: nat, bk: nat, n: nat)
    requires BusInv(a) && BusInv(b) && n <= |a.mixer.slots| && n <= |b.mixer.slots|
    requires forall x | 0 <= x < n :: SlotHears(c, a, af, x, ak) == SlotHears(c, b, bf, x, bk)
    ensures HeardSum(c, a, af, n, ak) == HeardSum(c, b, bf, n, bk)
  {
    hide BusInv, SlotHears;
    if n == 0 {
    } else {
      SumsAlike(c, a, af, ak, b, bf, bk, n - 1);
    }
  }

  // ---- the two conditions --------------------------------------------------------------------------

  /** In the first part, only the first reader of a store is heard. */
  ghost predicate FirstPartAlike<S>(c: Setup, b: Bus<S>, first: nat) {
    forall j, f | 0 <= j < |b.routes| && 0 <= f < first && RouteGain(c, b, j, f) != 0.0 ::
      Ahead(b.routes, j, b.routes[j].1) == 0
  }

  /** In the rest, whoever is heard reads where it would have in the tick taken whole. */
  ghost predicate RestAlike<S>(c: Setup, b: Bus<S>, first: nat, n: nat)
    requires Stored(b) && first <= n
  {
    forall j, f | 0 <= j < |b.routes| && first <= f < n && RouteGain(c, b, j, f) != 0.0 :: ReadsAlike(c, b, first, n, j)
  }

  ghost predicate ReadsAlike<S>(c: Setup, b: Bus<S>, first: nat, n: nat, j: nat)
    requires Stored(b) && first <= n && j < |b.routes|
  {
    CutAt(c, b, first, n - first, j) == ReadsAt(b, n, j) + first
  }

  // ---- enough ---------------------------------------------------------------------------------------

  lemma FirstBlocksAlike<S>(c: Setup, h: Bus<S>, first: nat, n: nat, k: nat)
    requires BusInv(h) && AtFormat(c, h) && FirstPartAlike(c, h, first) && first <= n && k < first * c.C()
    ensures Stored(h) && 0 <= k < n * c.C() && Block(c, h, first)[k] == Block(c, h, n)[k]
  {
    InvIsStored(h);
    ScaleMono(first, n, c.C());
    forall x | 0 <= x < |h.mixer.slots|
      ensures SlotHears(c, h, first, x, k) == SlotHears(c, h, n, x, k)
    {
      FirstSlotAlike(c, h, first, n, x, k);
    }
    hide BusInv, Block, HeardSum, SlotHears, FirstPartAlike;
    SumsAlike(c, h, first, k, h, n, k, |h.mixer.slots|);
    BlockIsHeard(c, h, first, k);
    BlockIsHeard(c, h, n, k);
  }

  lemma FirstSlotAlike<S>(c: Setup, h: Bus<S>, first: nat, n: nat, x: nat, k: nat)
    requires BusInv(h) && FirstPartAlike(c, h, first) && first <= n && k < first * c.C() && x < |h.mixer.slots|
    ensures SlotHears(c, h, first, x, k) == SlotHears(c, h, n, x, k)
  {
    var i := SlotHearsItsRoute(c, h, first, x, k);
    var i' := SlotHearsItsRoute(c, h, n, x, k);
    InvIsStored(h);
    if i < |h.routes| {
      NamedRoute(h, i);
      FrameOf(k, first, c.C());
      FirstReadAlike(c, h, first, n, i, k);
    }
  }

  lemma FirstReadAlike<S>(c: Setup, h: Bus<S>, first: nat, n: nat, i: nat, k: nat)
    requires BusInv(h) && FirstPartAlike(c, h, first) && i < |h.routes| && 0 <= k / c.C() < first
    ensures RouteHears(c, h, first, i, k) == RouteHears(c, h, n, i, k)
  {
    InvIsStored(h);
    NamedRoute(h, i);
    hide BusInv;
    if RouteGain(c, h, i, k / c.C()) == 0.0 {
      ZeroGain(h.stores[h.routes[i].1].window.At(c.C(), ReadsAt(h, first, i) * c.C() + k));
      ZeroGain(h.stores[h.routes[i].1].window.At(c.C(), ReadsAt(h, n, i) * c.C() + k));
    } else {
      assert Ahead(h.routes, i, h.routes[i].1) == 0;
      assert 0 * first == 0 && 0 * n == 0;
    }
  }

  lemma ZeroGain(x: real)
    ensures Scale(0.0, x) == 0.0
  {}

  lemma RestBlocksAlike<S>(c: Setup, h: Bus<S>, first: nat, n: nat, rest: nat, k: nat, at: nat)
    requires BusInv(h) && AtFormat(c, h) && FadesOut(h) && Stored(h) && n == first + rest && RestAlike(c, h, first, n)
    requires k < rest * c.C() && at == first * c.C() + k
    ensures BusInv(Mix(c, h, first)) && Stored(Mix(c, h, first)) && at < n * c.C()
    ensures Block(c, Mix(c, h, first), rest)[k] == Block(c, h, n)[at]
  {
    AfterFirst(c, h, first);
    var t := Mix(c, h, first);
    InvIsStored(t);
    Distribute(first, rest, c.C());
    forall x | 0 <= x < |h.mixer.slots|
      ensures SlotHears(c, t, rest, x, k) == SlotHears(c, h, n, x, at)
    {
      RestSlotAlike(c, h, first, n, rest, x, k, at);
    }
    hide BusInv, Block, HeardSum, SlotHears, RestAlike, Mix;
    SumsAlike(c, t, rest, k, h, n, at, |h.mixer.slots|);
    BlockIsHeard(c, t, rest, k);
    BlockIsHeard(c, h, n, at);
  }

  /** The route into a slot after the first part is the one that was there, if its fade goes on. */
  lemma RestRoute<S>(c: Setup, h: Bus<S>, first: nat, rest: nat, x: nat, k: nat, i: nat) returns (i': nat)
    requires BusInv(h) && AtFormat(c, h) && Stored(h) && x < |h.mixer.slots| && i <= |h.routes|
    requires i < |h.routes| ==> h.routes[i].0.input == x
    requires forall j | 0 <= j < |h.routes| && h.routes[j].0.input == x :: j == i
    ensures BusInv(Mix(c, h, first)) && |Mix(c, h, first).mixer.slots| == |h.mixer.slots| && i' <= |Mix(c, h, first).routes|
    ensures SlotHears(c, Mix(c, h, first), rest, x, k)
            == if i' < |Mix(c, h, first).routes| then RouteHears(c, Mix(c, h, first), rest, i', k) else 0.0
    ensures i' < |Mix(c, h, first).routes| <==> i < |h.routes| && h.routes[i].0 !in GoneBy(c, h, first)
    ensures i' < |Mix(c, h, first).routes| ==> i' == Rank(h.routes, GoneBy(c, h, first), i)
  {
    AfterFirst(c, h, first);
    var t, gone := Mix(c, h, first), GoneBy(c, h, first);
    hide BusInv, Mix, SlotHears, RouteHears, GoneBy, Others;
    i' := SlotHearsItsRoute(c, t, rest, x, k);
    if i' < |t.routes| {
      var j := KeptFrom(h.routes, gone, i');
      KeptAt(h.routes, gone, j);
      assert j == i;
    } else if i < |h.routes| && h.routes[i].0 !in gone {
      KeptAt(h.routes, gone, i);
    }
  }

  lemma RestSlotAlike<S>(c: Setup, h: Bus<S>, first: nat, n: nat, rest: nat, x: nat, k: nat, at: nat)
    requires BusInv(h) && AtFormat(c, h) && FadesOut(h) && Stored(h) && n == first + rest && RestAlike(c, h, first, n)
    requires k < rest * c.C() && x < |h.mixer.slots| && at == first * c.C() + k
    ensures BusInv(Mix(c, h, first)) && |Mix(c, h, first).mixer.slots| == |h.mixer.slots|
    ensures SlotHears(c, Mix(c, h, first), rest, x, k) == SlotHears(c, h, n, x, at)
  {
    hide BusInv, Mix, SlotHears, RouteHears, RouteGain, RestAlike, GoneBy, FadesOut, Stored, ReadsAt, WholeValue;
    var i := SlotHearsItsRoute(c, h, n, x, at);
    var i' := RestRoute(c, h, first, rest, x, k, i);
    FrameOf(k, rest, c.C());
    if i < |h.routes| {
      if h.routes[i].0 !in GoneBy(c, h, first) {
        KeptReadAlike(c, h, first, n, rest, i, k, at, Mix(c, h, first), i');
      } else {
        GoneIsSilent(c, h, first, i, first + k / c.C());
        WholeHeard(c, h, n, first, i, k);
        UnheardIsSilent(c, h, first, n, i, k);
      }
    }
  }

  lemma KeptReadAlike<S>(c: Setup, h: Bus<S>, first: nat, n: nat, rest: nat, j: nat, k: nat, at: nat, t: Bus<S>, i: nat)
    requires BusInv(h) && AtFormat(c, h) && Stored(h) && n == first + rest && RestAlike(c, h, first, n)
    requires j < |h.routes| && h.routes[j].0 !in GoneBy(c, h, first) && 0 <= k / c.C() < rest && at == first * c.C() + k
    requires t == Mix(c, h, first) && i == Rank(h.routes, GoneBy(c, h, first), j)
    ensures BusInv(t) && i < |t.routes| && RouteHears(c, t, rest, i, k) == RouteHears(c, h, n, j, at)
  {
    hide BusInv, Mix, RouteHears, RestAlike, GoneBy, Rank, CutValue, WholeValue, Stored;
    CutHeard(c, h, first, rest, j, k, t, i);
    WholeHeard(c, h, n, first, j, k);
    ValuesAlike(c, h, first, n, rest, j, k);
  }

  lemma UnheardIsSilent<S>(c: Setup, h: Bus<S>, first: nat, n: nat, i: nat, k: nat)
    requires Stored(h) && i < |h.routes| && RouteGain(c, h, i, first + k / c.C()) == 0.0
    ensures WholeValue(c, h, first, n, i, k) == 0.0
  {
    assert h.routes[i].1 in h.stores;
    ZeroGain(SampleAt(h.stores[h.routes[i].1].window, c.C(), ReadsAt(h, n, i) + first, k));
  }

  lemma ValuesAlike<S>(c: Setup, h: Bus<S>, first: nat, n: nat, rest: nat, i: nat, k: nat)
    requires Stored(h) && n == first + rest && RestAlike(c, h, first, n) && i < |h.routes| && 0 <= k / c.C() < rest
    ensures CutValue(c, h, first, rest, i, k) == WholeValue(c, h, first, n, i, k)
  {
    hide RouteGain, CutAt, ReadsAt;
    var f := first + k / c.C();
    assert h.routes[i].1 in h.stores;
    if RouteGain(c, h, i, f) == 0.0 {
      ZeroGain(SampleAt(h.stores[h.routes[i].1].window, c.C(), CutAt(c, h, first, rest, i), k));
      ZeroGain(SampleAt(h.stores[h.routes[i].1].window, c.C(), ReadsAt(h, n, i) + first, k));
    } else {
      assert ReadsAlike(c, h, first, n, i);
    }
  }

  // ---- both parts, end to end -----------------------------------------------------------------------

  /** A cut tick's blocks, end to end, and the whole tick's, as mixes. */
  lemma CutBlocks<S>(c: Setup, h: Bus<S>, mid: nat, target: nat, first: nat, n: nat)
    requires BusInv(h) && c.Monotone() && mid <= target && first == c.Owed(h.ticks, mid) > 0 && n == c.Owed(h.ticks, target)
    ensures first <= n && Stored(h) && Stored(Mix(c, h, first))
    ensures Blocks(c, h, [mid, target]) == Block(c, h, first) + Block(c, Mix(c, h, first), n - first)
    ensures TickBlock(c, h, target) == Block(c, h, n)
  {
    hide BusInv, Mix, Block, Blocks, Stored, TickTo, Setup.Owed;
    InvIsStored(h);
    MixKeepsInv(c, h, first);
    InvIsStored(Mix(c, h, first));
    SplitOwed(c, h.ticks, mid, target);
    MidTick(c, h, mid, target);
    TwoTicks(c, h, mid, target);
  }

  lemma SplitOwed(c: Setup, ticks: nat, mid: nat, target: nat)
    requires c.Monotone() && mid <= target && c.Owed(ticks, mid) > 0
    ensures ticks < mid && c.Owed(ticks, mid) <= c.Owed(ticks, target)
    ensures c.Owed(mid, target) == c.Owed(ticks, target) - c.Owed(ticks, mid)
  {
    assert c.total(ticks) <= c.total(mid) <= c.total(target);
  }

  /** The clock's tick aside, the bus a first tick leaves is the one its mix leaves. */
  lemma MidTick<S>(c: Setup, h: Bus<S>, mid: nat, target: nat)
    requires Stored(h) && Stored(Mix(c, h, c.Owed(h.ticks, mid))) && h.ticks < mid
    ensures Stored(TickTo(c, h, mid))
    ensures TickBlock(c, TickTo(c, h, mid), target) == Block(c, Mix(c, h, c.Owed(h.ticks, mid)), c.Owed(mid, target))
  {
    hide Mix, Block, Setup.Owed;
    MixIgnoresTicks(c, Mix(c, h, c.Owed(h.ticks, mid)), mid, c.Owed(mid, target));
  }

  lemma TwoTicks<S>(c: Setup, h: Bus<S>, mid: nat, target: nat)
    requires Stored(h) && Stored(TickTo(c, h, mid))
    ensures Blocks(c, h, [mid, target]) == TickBlock(c, h, mid) + TickBlock(c, TickTo(c, h, mid), target)
  {
    hide TickTo, TickBlock;
    assert [mid, target][1..] == [target] && [target][1..] == [];
    var t := TickTo(c, h, mid);
    assert Blocks(c, t, [target]) == TickBlock(c, t, target) + Blocks(c, TickTo(c, t, target), []);
  }

  lemma CutIsFree<S>(c: Setup, h: Bus<S>, mid: nat, target: nat, first: nat, n: nat)
    requires BusInv(h) && AtFormat(c, h) && FadesOut(h) && c.Monotone() && mid <= target
    requires first == c.Owed(h.ticks, mid) > 0 && n == c.Owed(h.ticks, target)
    requires FirstPartAlike(c, h, first) && Stored(h) && first <= n && RestAlike(c, h, first, n)
    ensures Blocks(c, h, [mid, target]) == TickBlock(c, h, target)
  {
    hide BusInv, Mix, Block, Blocks, TickBlock, FirstPartAlike, RestAlike, FadesOut, AtFormat;
    CutBlocks(c, h, mid, target, first, n);
    var rest := n - first;
    Distribute(first, rest, c.C());
    WholeFrames(first, c.C());
    var (head, tail, whole) := (Block(c, h, first), Block(c, Mix(c, h, first), rest), Block(c, h, n));
    forall k | 0 <= k < |head|
      ensures |head| <= |whole| && head[k] == whole[k]
    {
      FirstBlocksAlike(c, h, first, n, k);
    }
    forall k | 0 <= k < |tail|
      ensures tail[k] == whole[|head| + k]
    {
      RestBlocksAlike(c, h, first, n, rest, k, |head| + k);
    }
    Joins(head, tail, whole);
  }

  lemma Joins(head: seq<real>, tail: seq<real>, whole: seq<real>)
    requires |whole| == |head| + |tail|
    requires forall k | 0 <= k < |head| :: head[k] == whole[k]
    requires forall k | 0 <= k < |tail| :: tail[k] == whole[|head| + k]
    ensures head + tail == whole
  {
    forall k | |head| <= k < |whole|
      ensures (head + tail)[k] == whole[k]
    {
      assert tail[k - |head|] == whole[|head| + (k - |head|)];
    }
  }

  // ---- needed ---------------------------------------------------------------------------------------

  /** What a route hears of an impulse in the rest of a cut tick. */
  lemma CutImpulse<S>(c: Setup, b: Bus<S>, s: S, at: int, first: nat, rest: nat, f: nat, i: nat)
    requires BusInv(b) && s in b.stores && i < |b.routes|
    ensures Stored(b) && Stored(Holding(b, map[s := Impulse(c.C(), at)])) && f * c.C() >= 0
    ensures CutValue(c, Holding(b, map[s := Impulse(c.C(), at)]), first, rest, i, f * c.C())
            == if b.routes[i].1 == s && CutAt(c, b, first, rest, i) + f == at then RouteGain(c, b, i, first + f) else 0.0
  {
    var w := map[s := Impulse(c.C(), at)];
    var h := Holding(b, w);
    CutIgnoresWindows(c, b, first, rest, i, w);
    StoredRoute(b, i);
    hide BusInv, CutAt, RouteGain;
    WholeFrames(f, c.C());
    ImpulseAt(c.C(), at, CutAt(c, b, first, rest, i), f);
    hide Impulse;
    var g := RouteGain(c, b, i, first + f);
    assert RouteGain(c, h, i, first + f) == g by {
      SameGain(c, b, w, i, first + f);
    }
    assert Scale(g, 0.0) == 0.0 && Scale(g, 1.0) == g;
    assert h.stores[h.routes[i].1].window == if b.routes[i].1 == s then w[s] else RingSnapshot(0, []);
  }

  lemma CutInOrder<S>(c: Setup, b: Bus<S>, first: nat, rest: nat, i: nat, j: nat)
    requires Stored(b) && i < j < |b.routes| && b.routes[i].1 == b.routes[j].1 && rest > 0
    requires b.routes[i].0 !in GoneBy(c, b, first)
    ensures CutAt(c, b, first, rest, i) < CutAt(c, b, first, rest, j)
  {
    var gone, s := GoneBy(c, b, first), b.routes[i].1;
    KeptGrows(b.routes, gone, i, j, s);
    ScaleStrict(AheadKept(b.routes, gone, i, s), AheadKept(b.routes, gone, j, s), rest);
    hide GoneBy, AheadKept;
  }

  lemma WholeInOrder<S>(b: Bus<S>, n: nat, i: nat, j: nat)
    requires Stored(b) && i < j < |b.routes| && b.routes[i].1 == b.routes[j].1 && n > 0
    ensures ReadsAt(b, n, i) < ReadsAt(b, n, j)
  {
    AheadGrows(b.routes, i, j, b.routes[i].1);
    ScaleStrict(Ahead(b.routes, i, b.routes[i].1), Ahead(b.routes, j, b.routes[i].1), n);
  }

  /** The first route heard in frame `f` that does not read where it would have. */
  ghost predicate Misreads<S>(c: Setup, b: Bus<S>, first: nat, n: nat, j: nat, f: nat)
    requires Stored(b) && first <= n
  {
    j < |b.routes| && RouteGain(c, b, j, f) != 0.0 && !ReadsAlike(c, b, first, n, j)
  }

  lemma {:induction false} FirstMisread<S>(c: Setup, b: Bus<S>, first: nat, n: nat, j: nat, f: nat) returns (e: nat)
    requires Stored(b) && first <= n && Misreads(c, b, first, n, j, f)
    ensures Misreads(c, b, first, n, e, f) && forall i | 0 <= i < e :: !Misreads(c, b, first, n, i, f)
    decreases j
  {
    e := j;
    if i :| 0 <= i < j && Misreads(c, b, first, n, i, f) {
      e := FirstMisread(c, b, first, n, i, f);
    }
  }

  /** The whole tick hears an impulse exactly if some route heard in that frame reads it. */
  lemma WholeHearsImpulse<S>(c: Setup, b: Bus<S>, s: S, at: int, n: nat, f: nat, j: nat)
    requires BusInv(b) && AtFormat(c, b) && s in b.stores && f < n && j <= |b.routes| && Stored(b)
    requires forall i | 0 <= i < |b.routes| && i != j && b.routes[i].1 == s && ReadsAt(b, n, i) + f == at ::
             RouteGain(c, b, i, f) == 0.0
    ensures var h := Holding(b, map[s := Impulse(c.C(), at)]);
            && BusInv(h) && Stored(h) && 0 <= f * c.C() < n * c.C()
            && (j < |b.routes| && b.routes[j].1 == s && ReadsAt(b, n, j) + f == at && RouteGain(c, b, j, f) != 0.0 ==>
                  Block(c, h, n)[f * c.C()] != 0.0)
            && (j == |b.routes| ==> Block(c, h, n)[f * c.C()] == 0.0)
  {
    var h, k := Holding(b, map[s := Impulse(c.C(), at)]), f * c.C();
    HoldingKeepsInv(b, map[s := Impulse(c.C(), at)]);
    HoldingKeepsFormats(c, b, map[s := Impulse(c.C(), at)]);
    InvIsStored(h);
    ScaleStrict(f, n, c.C());
    ScaleMono(0, f, c.C());
    forall i | 0 <= i < |b.routes|
      ensures RouteHears(c, h, n, i, k)
              == if b.routes[i].1 == s && ReadsAt(b, n, i) + f == at then RouteGain(c, b, i, f) else 0.0
    {
      HearsImpulse(c, b, s, at, n, f, i);
    }
    hide BusInv, RouteHears, RouteGain, Holding, Impulse, ReadsAt, HeardSum, Block;
    BlockIsHeard(c, h, n, k);
    if j < |b.routes| {
      RouteIsSlotted(b, j);
      LoneSum(c, h, n, |b.mixer.slots|, k, j);
    } else {
      SilentSum(c, h, n, |b.mixer.slots|, k);
    }
  }

  lemma RouteIsSlotted<S>(b: Bus<S>, j: nat)
    requires BusInv(b) && j < |b.routes|
    ensures b.routes[j].0.input < |b.mixer.slots|
  {
    NamedRoute(b, j);
  }

  /** So does the rest of the cut tick. */
  lemma RestHearsImpulse<S>(c: Setup, b: Bus<S>, s: S, at: int, first: nat, rest: nat, f: nat, j: nat)
    requires BusInv(b) && AtFormat(c, b) && s in b.stores && f < rest && j <= |b.routes| && Stored(b)
    requires j < |b.routes| ==> b.routes[j].0 !in GoneBy(c, b, first)
    requires forall i | 0 <= i < |b.routes| && i != j && b.routes[i].1 == s && b.routes[i].0 !in GoneBy(c, b, first)
                        && CutAt(c, b, first, rest, i) + f == at :: RouteGain(c, b, i, first + f) == 0.0
    ensures var h := Holding(b, map[s := Impulse(c.C(), at)]);
            && BusInv(h) && Stored(Mix(c, h, first)) && 0 <= f * c.C() < rest * c.C()
            && (j < |b.routes| && b.routes[j].1 == s ==>
                  CutAt(c, b, first, rest, j) + f == at && RouteGain(c, b, j, first + f) != 0.0 ==>
                    Block(c, Mix(c, h, first), rest)[f * c.C()] != 0.0)
            && (j == |b.routes| ==> Block(c, Mix(c, h, first), rest)[f * c.C()] == 0.0)
  {
    var w := map[s := Impulse(c.C(), at)];
    var h, k := Holding(b, w), f * c.C();
    HoldingKeepsInv(b, w);
    HoldingKeepsFormats(c, b, w);
    InvIsStored(h);
    GoneIgnoresWindows(c, b, first, w);
    AfterFirst(c, h, first);
    var t, gone := Mix(c, h, first), GoneBy(c, b, first);
    InvIsStored(t);
    ScaleStrict(f, rest, c.C());
    ScaleMono(0, f, c.C());
    hide BusInv, RouteHears, RouteGain, Holding, Impulse, CutAt, CutValue, HeardSum, Block, Mix, GoneBy, Others,
         Stored, AtFormat;
    forall i' | 0 <= i' < |t.routes|
      ensures exists i :: 0 <= i < |b.routes| && b.routes[i].0 !in gone && i' == Rank(b.routes, gone, i)
                          && RouteHears(c, t, rest, i', k) == CutValue(c, h, first, rest, i, k)
    {
      var i := KeptFrom(b.routes, gone, i');
      CutHeard(c, h, first, rest, i, k, t, i');
    }
    forall i | 0 <= i < |b.routes|
      ensures CutValue(c, h, first, rest, i, k)
              == if b.routes[i].1 == s && CutAt(c, b, first, rest, i) + f == at then RouteGain(c, b, i, first + f) else 0.0
    {
      CutImpulse(c, b, s, at, first, rest, f, i);
    }
    BlockIsHeard(c, t, rest, k);
    if j < |b.routes| {
      var j' := Rank(b.routes, gone, j);
      CutHeard(c, h, first, rest, j, k, t, j');
      RouteIsSlotted(t, j');
      LoneSum(c, t, rest, |t.mixer.slots|, k, j');
    } else {
      SilentSum(c, t, rest, |t.mixer.slots|, k);
    }
  }

  lemma BlocksDiffer<S>(c: Setup, h: Bus<S>, mid: nat, target: nat, first: nat, n: nat, rest: nat, g: nat)
    requires BusInv(h) && c.Monotone() && mid <= target && first == c.Owed(h.ticks, mid) > 0 && n == c.Owed(h.ticks, target)
    requires n == first + rest && g < rest && Stored(h) && Stored(Mix(c, h, first))
    requires 0 <= g * c.C() < rest * c.C() && 0 <= (first + g) * c.C() < n * c.C()
    requires Block(c, Mix(c, h, first), rest)[g * c.C()] != Block(c, h, n)[(first + g) * c.C()]
    ensures Blocks(c, h, [mid, target]) != TickBlock(c, h, target)
  {
    hide BusInv, Mix, Block, Blocks, TickBlock;
    CutBlocks(c, h, mid, target, first, n);
    Distribute(first, g, c.C());
    var (head, tail, whole) := (Block(c, h, first), Block(c, Mix(c, h, first), rest), Block(c, h, n));
    assert (head + tail)[|head| + g * c.C()] == tail[g * c.C()];
  }

  /** If a route heard in the rest of the tick does not read where it would have, some store contents
      tell the cut from the whole. */
  lemma MisreadIsHeard<S>(c: Setup, b: Bus<S>, mid: nat, target: nat, first: nat, n: nat, rest: nat, j: nat, f: nat, g: nat)
    returns (w: map<S, RingSnapshot>)
    requires BusInv(b) && AtFormat(c, b) && FadesOut(b) && Stored(b) && c.Monotone() && mid <= target
    requires 0 < first == c.Owed(b.ticks, mid) && n == c.Owed(b.ticks, target) && n == first + rest && f == first + g
             && g < rest
    requires Misreads(c, b, first, n, j, f) && forall i | 0 <= i < j :: !Misreads(c, b, first, n, i, f)
    ensures Blocks(c, Holding(b, w), [mid, target]) != TickBlock(c, Holding(b, w), target)
  {
    hide BusInv, Block, Mix, Holding, Impulse, GoneBy, CutAt, ReadsAt, RouteGain, Blocks, TickBlock, Misreads,
         FadesOut, AtFormat, Setup.Owed, Stored;
    MisreadGoesOn(c, b, first, n, j, f);
    StoredRoute(b, j);
    w := Telltale(c, b, first, n, rest, j, f, g);
    HoldingKeepsInv(b, w);
    BlocksDiffer(c, Holding(b, w), mid, target, first, n, rest, g);
  }

  /** The store contents that tell: one impulse, where the earlier of the two reads it. */
  lemma Telltale<S>(c: Setup, b: Bus<S>, first: nat, n: nat, rest: nat, j: nat, f: nat, g: nat)
      returns (w: map<S, RingSnapshot>)
    requires BusInv(b) && AtFormat(c, b) && FadesOut(b) && Stored(b) && n == first + rest && f == first + g
             && g < rest && j < |b.routes|
    requires RouteGain(c, b, j, f) != 0.0 && b.routes[j].0 !in GoneBy(c, b, first)
    requires forall i | 0 <= i < j :: !Misreads(c, b, first, n, i, f)
    requires CutAt(c, b, first, rest, j) != ReadsAt(b, n, j) + first
    ensures var h := Holding(b, w);
            && Stored(h) && Stored(Mix(c, h, first)) && 0 <= f * c.C() < n * c.C() && 0 <= g * c.C() < rest * c.C()
            && Block(c, Mix(c, h, first), rest)[g * c.C()] != Block(c, h, n)[f * c.C()]
  {
    hide BusInv, Block, Mix, Holding, Impulse, GoneBy, CutAt, ReadsAt, RouteGain, Misreads, FadesOut, AtFormat;
    StoredRoute(b, j);
    if ReadsAt(b, n, j) + first < CutAt(c, b, first, rest, j) {
      w := map[b.routes[j].1 := Impulse(c.C(), ReadsAt(b, n, j) + first + g)];
      MisreadEarlier(c, b, first, n, rest, j, f, g);
    } else {
      w := map[b.routes[j].1 := Impulse(c.C(), CutAt(c, b, first, rest, j) + g)];
      MisreadLater(c, b, first, n, rest, j, f, g);
    }
  }

  lemma MisreadGoesOn<S>(c: Setup, b: Bus<S>, first: nat, n: nat, j: nat, f: nat)
    requires BusInv(b) && FadesOut(b) && Stored(b) && first <= f < n && Misreads(c, b, first, n, j, f)
    ensures j < |b.routes| && RouteGain(c, b, j, f) != 0.0 && b.routes[j].0 !in GoneBy(c, b, first)
    ensures CutAt(c, b, first, n - first, j) != ReadsAt(b, n, j) + first
  {
    hide BusInv, FadesOut, GoneBy, RouteGain, CutAt, ReadsAt;
    if b.routes[j].0 in GoneBy(c, b, first) {
      GoneIsSilent(c, b, first, j, f);
    }
  }

  lemma MisreadEarlier<S>(c: Setup, b: Bus<S>, first: nat, n: nat, rest: nat, j: nat, f: nat, g: nat)
    requires BusInv(b) && AtFormat(c, b) && Stored(b) && n == first + rest && f == first + g && g < rest && j < |b.routes|
    requires RouteGain(c, b, j, f) != 0.0 && b.routes[j].0 !in GoneBy(c, b, first)
    requires forall i | 0 <= i < j :: !Misreads(c, b, first, n, i, f)
    requires ReadsAt(b, n, j) + first < CutAt(c, b, first, rest, j)
    ensures var h := Holding(b, map[b.routes[j].1 := Impulse(c.C(), ReadsAt(b, n, j) + first + g)]);
            && Stored(h) && Stored(Mix(c, h, first)) && 0 <= f * c.C() < n * c.C() && 0 <= g * c.C() < rest * c.C()
            && Block(c, h, n)[f * c.C()] != 0.0 && Block(c, Mix(c, h, first), rest)[g * c.C()] == 0.0
  {
    hide BusInv, Block, Mix, Holding, Impulse, GoneBy, CutAt, ReadsAt, RouteGain, Misreads, AtFormat;
    StoredRoute(b, j);
    OnlyWhole(c, b, first, n, rest, j, f);
    WholeHearsImpulse(c, b, b.routes[j].1, ReadsAt(b, n, j) + first + g, n, f, j);
    RestHearsImpulse(c, b, b.routes[j].1, ReadsAt(b, n, j) + first + g, first, rest, g, |b.routes|);
  }

  lemma MisreadLater<S>(c: Setup, b: Bus<S>, first: nat, n: nat, rest: nat, j: nat, f: nat, g: nat)
    requires BusInv(b) && AtFormat(c, b) && FadesOut(b) && Stored(b) && n == first + rest && f == first + g
             && g < rest && j < |b.routes|
    requires RouteGain(c, b, j, f) != 0.0 && b.routes[j].0 !in GoneBy(c, b, first)
    requires forall i | 0 <= i < j :: !Misreads(c, b, first, n, i, f)
    requires ReadsAt(b, n, j) + first > CutAt(c, b, first, rest, j)
    ensures var h := Holding(b, map[b.routes[j].1 := Impulse(c.C(), CutAt(c, b, first, rest, j) + g)]);
            && Stored(h) && Stored(Mix(c, h, first)) && 0 <= f * c.C() < n * c.C() && 0 <= g * c.C() < rest * c.C()
            && Block(c, h, n)[f * c.C()] == 0.0 && Block(c, Mix(c, h, first), rest)[g * c.C()] != 0.0
  {
    hide BusInv, Block, Mix, Holding, Impulse, GoneBy, CutAt, ReadsAt, RouteGain, Misreads, AtFormat, FadesOut;
    StoredRoute(b, j);
    OnlyCut(c, b, first, n, rest, j, f);
    WholeHearsImpulse(c, b, b.routes[j].1, CutAt(c, b, first, rest, j) + g, n, f, |b.routes|);
    RestHearsImpulse(c, b, b.routes[j].1, CutAt(c, b, first, rest, j) + g, first, rest, g, j);
  }

  /** Where it reads earlier in the whole tick, it alone reads that frame there, and no route heard
      reads it in the rest of the cut one. */
  lemma OnlyWhole<S>(c: Setup, b: Bus<S>, first: nat, n: nat, rest: nat, j: nat, f: nat)
    requires Stored(b) && n == first + rest && first <= f < n && j < |b.routes|
    requires RouteGain(c, b, j, f) != 0.0 && b.routes[j].0 !in GoneBy(c, b, first)
    requires forall i | 0 <= i < j :: !Misreads(c, b, first, n, i, f)
    requires ReadsAt(b, n, j) + first < CutAt(c, b, first, rest, j)
    ensures forall i | 0 <= i < |b.routes| && i != j && b.routes[i].1 == b.routes[j].1 ::
            ReadsAt(b, n, i) != ReadsAt(b, n, j)
    ensures forall i | 0 <= i < |b.routes| && b.routes[i].1 == b.routes[j].1 && b.routes[i].0 !in GoneBy(c, b, first)
                       && CutAt(c, b, first, rest, i) == ReadsAt(b, n, j) + first :: RouteGain(c, b, i, f) == 0.0
  {
    hide GoneBy, CutAt, ReadsAt, RouteGain;
    forall i | 0 <= i < |b.routes| && i != j && b.routes[i].1 == b.routes[j].1
      ensures ReadsAt(b, n, i) != ReadsAt(b, n, j)
    {
      if i < j {
        WholeInOrder(b, n, i, j);
      } else {
        WholeInOrder(b, n, j, i);
      }
    }
    forall i | 0 <= i < |b.routes| && b.routes[i].1 == b.routes[j].1 && b.routes[i].0 !in GoneBy(c, b, first)
               && CutAt(c, b, first, rest, i) == ReadsAt(b, n, j) + first
      ensures RouteGain(c, b, i, f) == 0.0
    {
      if i > j {
        CutInOrder(c, b, first, rest, j, i);
      } else if i < j {
        assert !Misreads(c, b, first, n, i, f);
        WholeInOrder(b, n, i, j);
      }
    }
  }

  /** And the other way about. */
  lemma OnlyCut<S>(c: Setup, b: Bus<S>, first: nat, n: nat, rest: nat, j: nat, f: nat)
    requires BusInv(b) && FadesOut(b) && Stored(b) && n == first + rest && first <= f < n && j < |b.routes|
    requires b.routes[j].0 !in GoneBy(c, b, first)
    requires forall i | 0 <= i < j :: !Misreads(c, b, first, n, i, f)
    requires ReadsAt(b, n, j) + first > CutAt(c, b, first, rest, j)
    ensures forall i | 0 <= i < |b.routes| && i != j && b.routes[i].1 == b.routes[j].1
            && b.routes[i].0 !in GoneBy(c, b, first) ::
              CutAt(c, b, first, rest, i) != CutAt(c, b, first, rest, j)
    ensures forall i | 0 <= i < |b.routes| && b.routes[i].1 == b.routes[j].1
                       && ReadsAt(b, n, i) + first == CutAt(c, b, first, rest, j) :: RouteGain(c, b, i, f) == 0.0
  {
    hide GoneBy, CutAt, ReadsAt, RouteGain, BusInv, FadesOut;
    forall i | 0 <= i < |b.routes| && i != j && b.routes[i].1 == b.routes[j].1 && b.routes[i].0 !in GoneBy(c, b, first)
      ensures CutAt(c, b, first, rest, i) != CutAt(c, b, first, rest, j)
    {
      if i < j {
        CutInOrder(c, b, first, rest, i, j);
      } else {
        CutInOrder(c, b, first, rest, j, i);
      }
    }
    forall i | 0 <= i < |b.routes| && b.routes[i].1 == b.routes[j].1
               && ReadsAt(b, n, i) + first == CutAt(c, b, first, rest, j)
      ensures RouteGain(c, b, i, f) == 0.0
    {
      if i > j {
        WholeInOrder(b, n, j, i);
      } else if i < j {
        if b.routes[i].0 in GoneBy(c, b, first) {
          GoneIsSilent(c, b, first, i, f);
        } else {
          assert !Misreads(c, b, first, n, i, f);
          CutInOrder(c, b, first, rest, i, j);
        }
      }
    }
  }

  // ---- exactly when a cut is free --------------------------------------------------------------------

  /** For any bus and any cut inside a tick: over all store contents the cut makes no difference
      exactly when, in the first part, only the first reader of a store is heard, and in the rest,
      whoever is heard reads where it would have in the tick taken whole. */
  lemma CutIsFreeIff<S(!new)>(c: Setup, b: Bus<S>, mid: nat, target: nat, first: nat, n: nat)
    requires BusInv(b) && AtFormat(c, b) && FadesOut(b) && c.Monotone() && mid <= target
    requires 0 < first == c.Owed(b.ticks, mid) < c.Owed(b.ticks, target) == n
    ensures Stored(b)
    ensures (forall w: map<S, RingSnapshot> ::
               Blocks(c, Holding(b, w), [mid, target]) == TickBlock(c, Holding(b, w), target))
            <==> FirstPartAlike(c, b, first) && RestAlike(c, b, first, n)
  {
    InvIsStored(b);
    hide BusInv, Blocks, TickBlock, Holding, FadesOut, AtFormat, Stored, RouteGain, ReadsAlike, Ahead;
    if !FirstPartAlike(c, b, first) {
      var j, f :| 0 <= j < |b.routes| && 0 <= f < first && RouteGain(c, b, j, f) != 0.0
          && Ahead(b.routes, j, b.routes[j].1) != 0;
      var w := SharedCutIsHeard(c, b, mid, target, j, f);
    } else if !RestAlike(c, b, first, n) {
      var j, f :| 0 <= j < |b.routes| && first <= f < n && RouteGain(c, b, j, f) != 0.0 && !ReadsAlike(c, b, first, n, j);
      var e := FirstMisread(c, b, first, n, j, f);
      var w := MisreadIsHeard(c, b, mid, target, first, n, n - first, e, f, f - first);
    } else {
      forall w: map<S, RingSnapshot>
        ensures Blocks(c, Holding(b, w), [mid, target]) == TickBlock(c, Holding(b, w), target)
      {
        AlikeIgnoresWindows(c, b, first, n, w);
        CutIsFree(c, Holding(b, w), mid, target, first, n);
      }
    }
  }

  lemma AlikeIgnoresWindows<S>(c: Setup, b: Bus<S>, first: nat, n: nat, w: map<S, RingSnapshot>)
    requires BusInv(b) && AtFormat(c, b) && FadesOut(b) && first <= n && Stored(b)
    requires FirstPartAlike(c, b, first) && RestAlike(c, b, first, n)
    ensures var h := Holding(b, w);
            && BusInv(h) && AtFormat(c, h) && FadesOut(h) && Stored(h)
            && FirstPartAlike(c, h, first) && RestAlike(c, h, first, n)
  {
    var h := Holding(b, w);
    HoldingKeepsInv(b, w);
    HoldingKeepsFormats(c, b, w);
    InvIsStored(h);
    forall j, f | 0 <= j < |b.routes| && 0 <= f
      ensures RouteGain(c, h, j, f) == RouteGain(c, b, j, f)
    {
      SameGain(c, b, w, j, f);
    }
    hide BusInv, RouteGain, CutAt, GoneBy;
    forall j | 0 <= j < |b.routes|
      ensures ReadsAlike(c, h, first, n, j) == ReadsAlike(c, b, first, n, j)
    {
      CutIgnoresWindows(c, b, first, n - first, j, w);
    }
  }

  /** While no fade finishes in the first part, the rest is alike exactly when only the last reader
      of a store is heard in it. */
  lemma RestNeedsLastReaders<S>(c: Setup, b: Bus<S>, first: nat, n: nat)
    requires Stored(b) && 0 < first < n && GoneBy(c, b, first) == {}
    ensures RestAlike(c, b, first, n)
            <==> forall j, f | 0 <= j < |b.routes| && first <= f < n && RouteGain(c, b, j, f) != 0.0 ::
                   Ahead(b.routes, j, b.routes[j].1) + 1 == Ahead(b.routes, |b.routes|, b.routes[j].1)
  {
    hide RouteGain, GoneBy;
    forall j | 0 <= j < |b.routes|
      ensures ReadsAlike(c, b, first, n, j)
              <==> Ahead(b.routes, j, b.routes[j].1) + 1 == Ahead(b.routes, |b.routes|, b.routes[j].1)
    {
      LastReadsAlike(c, b, first, n, j);
    }
    hide ReadsAlike, Ahead;
  }

  lemma LastReadsAlike<S>(c: Setup, b: Bus<S>, first: nat, n: nat, j: nat)
    requires Stored(b) && 0 < first < n && GoneBy(c, b, first) == {} && j < |b.routes|
    ensures ReadsAlike(c, b, first, n, j)
            <==> Ahead(b.routes, j, b.routes[j].1) + 1 == Ahead(b.routes, |b.routes|, b.routes[j].1)
  {
    hide Stored, GoneBy, Ahead, CutAt, ReadsAt, Later;
    var s := b.routes[j].1;
    AheadGrows(b.routes, j, |b.routes|, s);
    CutAtWithout(c, b, first, n - first, j);
    WholeAt(b, n, j);
    LastIff(b.stores[s].cursor, Ahead(b.routes, j, s), Ahead(b.routes, |b.routes|, s), first, n - first, n);
  }

  lemma CutAtWithout<S>(c: Setup, b: Bus<S>, first: nat, rest: nat, j: nat)
    requires Stored(b) && GoneBy(c, b, first) == {} && j < |b.routes|
    ensures var s := b.routes[j].1;
            s in b.stores && CutAt(c, b, first, rest, j)
              == Later(b.stores[s].cursor, Ahead(b.routes, |b.routes|, s), first, Ahead(b.routes, j, s), rest)
  {
    NoneKeptOut(b.routes, j, b.routes[j].1);
    hide GoneBy, Ahead, AheadKept, Later;
  }

  lemma WholeAt<S>(b: Bus<S>, n: nat, j: nat)
    requires Stored(b) && j < |b.routes|
    ensures var s := b.routes[j].1;
            s in b.stores && ReadsAt(b, n, j) == Later(b.stores[s].cursor, Ahead(b.routes, j, s), n, 0, 0)
  {
    hide Ahead;
  }

  lemma LastIff(cursor: int, a: nat, all: nat, first: nat, rest: nat, n: nat)
    requires a < all && first > 0 && n == first + rest
    ensures Later(cursor, all, first, a, rest) == Later(cursor, a, n, 0, 0) + first <==> a + 1 == all
  {
    assert a * n == a * first + a * rest;
    assert (a + 1) * first == a * first + first;
    ScaleStrict(a + 1, all, first);
  }

  lemma {:induction false} NoneKeptOut<S>(routes: seq<(RoutePoint, S)>, j: nat, s: S)
    requires j <= |routes|
    ensures AheadKept(routes, {}, j, s) == Ahead(routes, j, s)
  {
    if j == 0 {
    } else {
      NoneKeptOut(routes, j - 1, s);
    }
  }
}
