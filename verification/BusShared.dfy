/** Why routed stores must be distinct: routes on one store share its read cursor, each reading
    the frames after the one before it, and what they hear then depends on how the ticks are
    cut. */
module BusShared {
  import opened Audio
  import opened Store
  import opened Mixer
  import opened BusModel
  import opened BusInvariant
  import opened BusRuns
  import opened BusSignal

  // ---- what a tick reads, shared stores or not ------------------------------------------------

  /** How many of the first `i` routes read `s`. */
  function Ahead<S(==)>(routes: seq<(RoutePoint, S)>, i: nat, s: S): nat
    requires i <= |routes|
  {
    if i == 0 then 0 else Ahead(routes, i - 1, s) + if routes[i - 1].1 == s then 1 else 0
  }

  lemma {:induction false} PullMovesCursor<S>(c: Setup, b: Bus<S>, frames: nat, i: nat, s: S)
    requires Stored(b) && i <= |b.routes| && s in b.stores
    ensures Pull(c, b, frames, i).stores[s] == b.stores[s].(cursor := b.stores[s].cursor + Ahead(b.routes, i, s) * frames)
  {
    if i == 0 {
      assert 0 * frames == 0;
    } else {
      PullMovesCursor(c, b, frames, i - 1, s);
      Distribute(Ahead(b.routes, i - 1, s), 1, frames);
    }
  }

  /** Where route `j` reads within a tick of `frames` frames. */
  ghost function ReadsAt<S>(b: Bus<S>, frames: nat, j: nat): int
    requires Stored(b) && j < |b.routes|
  {
    b.stores[b.routes[j].1].cursor + Ahead(b.routes, j, b.routes[j].1) * frames
  }

  /** Route points name live strips, one a slot. */
  ghost predicate Apart<S>(b: Bus<S>) {
    && Stored(b)
    && (forall i | 0 <= i < |b.routes| :: b.mixer.Names(b.routes[i].0))
    && (forall i, j | 0 <= i < |b.routes| && 0 <= j < |b.routes| && i != j :: b.routes[i].0.input != b.routes[j].0.input)
  }

  lemma RoutesAreApart<S>(b: Bus<S>)
    requires BusInv(b)
    ensures Apart(b)
  {
    forall i, j | 0 <= i < |b.routes| && 0 <= j < |b.routes| && i != j
      ensures b.routes[i].0.input != b.routes[j].0.input
    {
      assert b.mixer.Names(b.routes[i].0) && b.mixer.Names(b.routes[j].0);
      if i < j {
        assert b.routes[i].0 != b.routes[j].0;
      } else {
        assert b.routes[j].0 != b.routes[i].0;
      }
    }
  }

  ghost function FedStrip<S>(c: Setup, b: Bus<S>, frames: nat, j: nat): Strip
    requires Apart(b) && j < |b.routes|
  {
    var (p, s) := b.routes[j];
    b.mixer.slots[p.input].value.(latest := Some(b.stores[s].window.Slice(c.C(), ReadsAt(b, frames, j), frames)))
  }

  /** After `i` pulls a strip among them holds what its route read, if that is at the bus format;
      any other strip is as it was. */
  lemma {:induction false} PullFeeds<S>(c: Setup, b: Bus<S>, frames: nat, i: nat, j: nat)
    requires Apart(b) && j < |b.routes| && i <= |b.routes|
    ensures var m := Pull(c, b, frames, i).mixer;
            && m.Names(b.routes[j].0)
            && m.slots[b.routes[j].0.input]
               == if j < i && b.stores[b.routes[j].1].format == c.format then Some(FedStrip(c, b, frames, j))
                  else b.mixer.slots[b.routes[j].0.input]
  {
    hide Pull, FedStrip;
    if i == 0 {
      PullStart(c, b, frames);
    } else {
      PullFeeds(c, b, frames, i - 1, j);
      PullFeeds(c, b, frames, i - 1, i - 1);
      PullNext(c, b, frames, i - 1);
      StepFeeds(c, b, frames, i - 1);
    }
  }

  /** The block route `i` submits is the one it feeds its strip. */
  lemma StepFeeds<S>(c: Setup, b: Bus<S>, frames: nat, i: nat)
    requires Apart(b) && i < |b.routes|
    ensures var feed := Pull(c, b, frames, i).stores[b.routes[i].1];
            && feed.format == b.stores[b.routes[i].1].format
            && FedStrip(c, b, frames, i)
            == b.mixer.slots[b.routes[i].0.input].value.(latest := Some(feed.window.Slice(c.C(), feed.cursor, frames)))
  {
    hide Pull;
    PullMovesCursor(c, b, frames, i, b.routes[i].1);
  }

  /** What slot `x` adds to sample `k` of a tick of `frames` frames. */
  ghost function SlotHears<S>(c: Setup, b: Bus<S>, frames: nat, x: nat, k: nat): real
    requires BusInv(b) && x < |b.mixer.slots|
  {
    if b.mixer.slots[x].None? then 0.0 else
      var i := IndexOf(b.routes, RoutePoint(x, b.mixer.generations[x]));
      CarriedIndex(b.routes, RoutePoint(x, b.mixer.generations[x]));
      RouteHears(c, b, frames, i, k)
  }

  /** What route `i` adds to sample `k` of a tick of `frames` frames. */
  ghost function RouteHears<S>(c: Setup, b: Bus<S>, frames: nat, i: nat, k: nat): real
    requires BusInv(b) && i < |b.routes|
  {
    assert b.mixer.Names(b.routes[i].0);
    Scale(b.mixer.slots[b.routes[i].0.input].value.GainAt(c.trig, k / c.C()),
          b.stores[b.routes[i].1].window.At(c.C(), ReadsAt(b, frames, i) * c.C() + k))
  }

  function IndexOf<S>(routes: seq<(RoutePoint, S)>, p: RoutePoint): (i: nat)
    ensures i <= |routes|
    ensures i < |routes| ==> routes[i].0 == p
  {
    if routes == [] || routes[0].0 == p then 0 else 1 + IndexOf(routes[1..], p)
  }

  lemma {:induction false} CarriedIndex<S>(routes: seq<(RoutePoint, S)>, p: RoutePoint)
    requires Carries(routes, p)
    ensures IndexOf(routes, p) < |routes|
  {
    var i :| 0 <= i < |routes| && routes[i].0 == p;
    if routes[0].0 == p {
    } else {
      assert routes[1..][i - 1].0 == p;
      CarriedIndex(routes[1..], p);
    }
  }

  /** The route into slot `x`, if there is one, reads a store at the bus format. */
  ghost predicate SlotAtFormat<S>(c: Setup, b: Bus<S>, x: nat)
    requires BusInv(b) && x < |b.mixer.slots|
  {
    forall i | 0 <= i < |b.routes| && b.routes[i].0.input == x :: b.stores[b.routes[i].1].format == c.format
  }

  lemma SlotIsFed<S>(c: Setup, b: Bus<S>, frames: nat, x: nat)
    requires BusInv(b) && x < |b.mixer.slots| && SlotAtFormat(c, b, x)
    ensures var m := Pull(c, b, frames, |b.routes|).mixer;
            && |m.slots| == |b.mixer.slots|
            && (m.slots[x].Some? <==> b.mixer.slots[x].Some?)
            && SlotFrames(c.C(), m.slots[x]) == (if m.slots[x].Some? then frames else 0)
            && (m.slots[x].Some? ==> forall k | 0 <= k < frames * c.C() ::
                  m.slots[x].value.Contribution(c.trig, c.C(), k) == SlotHears(c, b, frames, x, k))
  {
    PullKeepsStrips(c, b, frames, |b.routes|);
    if b.mixer.slots[x].Some? {
      var p := RoutePoint(x, b.mixer.generations[x]);
      CarriedIndex(b.routes, p);
      var i := IndexOf(b.routes, p);
      RoutesAreApart(b);
      PullFeeds(c, b, frames, |b.routes|, i);
      hide Pull;
      var feed := b.stores[b.routes[i].1].(cursor := ReadsAt(b, frames, i));
      FedContribution(c, b.mixer.slots[x].value, feed, frames);
    }
  }

  ghost function HeardSum<S>(c: Setup, b: Bus<S>, frames: nat, n: nat, k: nat): real
    requires BusInv(b) && n <= |b.mixer.slots|
  {
    if n == 0 then 0.0 else HeardSum(c, b, frames, n - 1, k) + SlotHears(c, b, frames, n - 1, k)
  }

  lemma {:induction false} SlotwiseHeard<S>(c: Setup, b: Bus<S>, frames: nat, m: Slots, n: nat, k: nat)
    requires BusInv(b) && |m.slots| == |b.mixer.slots| && n <= |m.slots|
    requires forall x | 0 <= x < n :: SlotHears(c, b, frames, x, k)
               == if m.slots[x].Some? then m.slots[x].value.Contribution(c.trig, c.C(), k) else 0.0
    ensures m.BusSum(c.trig, c.C(), n, k) == HeardSum(c, b, frames, n, k)
  {
    if n == 0 {
    } else {
      hide SlotHears;
      SlotwiseHeard(c, b, frames, m, n - 1, k);
    }
  }

  /** One tick, for any routes: each reads after those before it on the same store. */
  lemma BlockIsHeard<S>(c: Setup, b: Bus<S>, frames: nat, k: nat)
    requires BusInv(b) && AtFormat(c, b) && k < frames * c.C()
    ensures Block(c, b, frames)[k] == ClampUnit(HeardSum(c, b, frames, |b.mixer.slots|, k))
  {
    InvIsStored(b);
    hide BusInv, SlotHears, Pull;
    var n, m := |b.mixer.slots|, Pull(c, b, frames, |b.routes|).mixer;
    forall x | 0 <= x < n
      ensures |m.slots| == n
      ensures SlotHears(c, b, frames, x, k) == if m.slots[x].Some? then m.slots[x].value.Contribution(c.trig, c.C(), k) else 0.0
      ensures SlotFrames(c.C(), m.slots[x]) == if m.slots[x].Some? then frames else 0
    {
      SlotIsFed(c, b, frames, x);
      EmptyHearsNothing(c, b, frames, x, k);
    }
    PulledSlots(c, b, frames);
    SlotwiseHeard(c, b, frames, m, n, k);
    SlotwiseFrames(c.C(), m, frames, n);
    if !AnyLive(m, n) {
      EmptySum(c.trig, c.C(), m, n, k);
    }
  }

  lemma InvIsStored<S>(b: Bus<S>)
    requires BusInv(b)
    ensures Stored(b) && |b.mixer.slots| == |b.mixer.generations|
  {}

  lemma PulledSlots<S>(c: Setup, b: Bus<S>, frames: nat)
    requires BusInv(b)
    ensures |Pull(c, b, frames, |b.routes|).mixer.slots| == |b.mixer.slots|
  {
    PullKeepsStrips(c, b, frames, |b.routes|);
  }

  lemma EmptyHearsNothing<S>(c: Setup, b: Bus<S>, frames: nat, x: nat, k: nat)
    requires BusInv(b) && x < |b.mixer.slots|
    ensures b.mixer.slots[x].None? ==> SlotHears(c, b, frames, x, k) == 0.0
  {}

  // ---- one audible frame --------------------------------------------------------------------------

  /** The bus with its stores refilled: `w` gives windows, and every other store is empty. */
  ghost function Holding<S>(b: Bus<S>, w: map<S, RingSnapshot>): (r: Bus<S>)
    ensures r.mixer == b.mixer && r.routes == b.routes && r.fading == b.fading && r.ticks == b.ticks
    ensures r.stores.Keys == b.stores.Keys && (Stored(b) ==> Stored(r))
  {
    b.(stores := map s | s in b.stores :: b.stores[s].(window := if s in w then w[s] else RingSnapshot(0, [])))
  }

  lemma HoldingKeepsInv<S>(b: Bus<S>, w: map<S, RingSnapshot>)
    requires BusInv(b)
    ensures BusInv(Holding(b, w))
  {}

  lemma HoldingKeepsFormats<S>(c: Setup, b: Bus<S>, w: map<S, RingSnapshot>)
    requires AtFormat(c, b)
    ensures AtFormat(c, Holding(b, w))
  {}

  /** A window of one full-scale frame. */
  function Impulse(channels: nat, at: int): RingSnapshot {
    RingSnapshot(at, seq(channels, _ => 1.0))
  }

  lemma ImpulseAt(channels: nat, at: int, x: int, f: nat)
    requires channels > 0
    ensures Impulse(channels, at).At(channels, x * channels + f * channels) == if x + f == at then 1.0 else 0.0
  {
    Distribute(x, f, channels);
    ScaleStrict(at, x + f, channels);
    ScaleStrict(x + f, at, channels);
    Distribute(at, 1, channels);
    Distribute(x + f, 1, channels);
    if x + f > at {
      ScaleMono(at + 1, x + f, channels);
    }
  }

  /** What route `i` hears of an impulse in store `s`, in frame `f`. */
  lemma HearsImpulse<S>(c: Setup, b: Bus<S>, s: S, at: int, frames: nat, f: nat, i: nat)
    requires BusInv(b) && s in b.stores && i < |b.routes|
    ensures BusInv(Holding(b, map[s := Impulse(c.C(), at)])) && b.mixer.Names(b.routes[i].0)
    ensures RouteHears(c, Holding(b, map[s := Impulse(c.C(), at)]), frames, i, f * c.C())
            == if b.routes[i].1 == s && ReadsAt(b, frames, i) + f == at
               then b.mixer.slots[b.routes[i].0.input].value.GainAt(c.trig, f) else 0.0
  {
    var held := Holding(b, map[s := Impulse(c.C(), at)]);
    HoldingKeepsInv(b, map[s := Impulse(c.C(), at)]);
    WholeFrames(f, c.C());
    var x := ReadsAt(b, frames, i);
    assert ReadsAt(held, frames, i) == x;
    ImpulseAt(c.C(), at, x, f);
    var g := b.mixer.slots[b.routes[i].0.input].value.GainAt(c.trig, f);
    assert Scale(g, 0.0) == 0.0 && Scale(g, 1.0) == g;
  }

  /** The gain route `i` applies in frame `f` from now. */
  function RouteGain<S>(c: Setup, b: Bus<S>, i: nat, f: nat): real
    requires i < |b.routes|
  {
    if b.mixer.Names(b.routes[i].0) then b.mixer.slots[b.routes[i].0.input].value.GainAt(c.trig, f) else 0.0
  }

  /** The gain of a route does not depend on what the stores hold. */
  lemma SameGain<S>(c: Setup, b: Bus<S>, w: map<S, RingSnapshot>, i: nat, f: nat)
    requires i < |b.routes|
    ensures RouteGain(c, Holding(b, w), i, f) == RouteGain(c, b, i, f)
  {
    hide Holding;
  }

  /** A slot hears what the one route into it does, if there is one. */
  lemma SlotHearsItsRoute<S>(c: Setup, b: Bus<S>, frames: nat, x: nat, k: nat) returns (i: nat)
    requires BusInv(b) && x < |b.mixer.slots|
    ensures i <= |b.routes|
    ensures SlotHears(c, b, frames, x, k) == if i < |b.routes| then RouteHears(c, b, frames, i, k) else 0.0
    ensures i < |b.routes| ==> b.routes[i].0.input == x
    ensures forall j | 0 <= j < |b.routes| && b.routes[j].0.input == x :: j == i
  {
    hide RouteHears;
    RoutesAreApart(b);
    i := |b.routes|;
    if b.mixer.slots[x].Some? {
      var p := RoutePoint(x, b.mixer.generations[x]);
      CarriedIndex(b.routes, p);
      i := IndexOf(b.routes, p);
    }
  }

  lemma {:induction false} SilentSum<S>(c: Setup, b: Bus<S>, frames: nat, n: nat, k: nat)
    requires BusInv(b) && n <= |b.mixer.slots|
    requires forall i | 0 <= i < |b.routes| && b.routes[i].0.input < n :: RouteHears(c, b, frames, i, k) == 0.0
    ensures HeardSum(c, b, frames, n, k) == 0.0
  {
    hide BusInv, RouteHears, SlotHears;
    if n == 0 {
    } else {
      SilentSum(c, b, frames, n - 1, k);
      var i := SlotHearsItsRoute(c, b, frames, n - 1, k);
    }
  }

  lemma {:induction false} LoneSum<S>(c: Setup, b: Bus<S>, frames: nat, n: nat, k: nat, j: nat)
    requires BusInv(b) && n <= |b.mixer.slots| && j < |b.routes| && b.routes[j].0.input < n
    requires forall i | 0 <= i < |b.routes| && i != j :: RouteHears(c, b, frames, i, k) == 0.0
    ensures HeardSum(c, b, frames, n, k) == RouteHears(c, b, frames, j, k)
  {
    hide BusInv, RouteHears, SlotHears;
    var i := SlotHearsItsRoute(c, b, frames, n - 1, k);
    if b.routes[j].0.input == n - 1 {
      SilentSum(c, b, frames, n - 1, k);
    } else {
      LoneSum(c, b, frames, n - 1, k, j);
    }
  }

  // ---- a cut that is heard --------------------------------------------------------------------------

  /** Route `j` shares its store with an earlier one and is heard in frame `f`. */
  predicate LaterReader<S(==)>(c: Setup, b: Bus<S>, j: nat, f: nat) {
    && j < |b.routes| && Ahead(b.routes, j, b.routes[j].1) > 0
    && RouteGain(c, b, j, f) != 0.0
  }

  lemma {:induction false} AheadGrows<S>(routes: seq<(RoutePoint, S)>, i: nat, j: nat, s: S)
    requires i <= j <= |routes|
    ensures Ahead(routes, i, s) <= Ahead(routes, j, s)
    ensures i < j && routes[i].1 == s ==> Ahead(routes, i, s) < Ahead(routes, j, s)
    decreases j - i
  {
    if i == j {
    } else {
      AheadGrows(routes, i, j - 1, s);
    }
  }

  /** The earliest such reader: no earlier reader of its store but the very first is heard. */
  lemma {:induction false} EarliestReader<S>(c: Setup, b: Bus<S>, j: nat, f: nat) returns (e: nat)
    requires LaterReader(c, b, j, f)
    ensures LaterReader(c, b, e, f)
    ensures forall i | 0 <= i < e && b.routes[i].1 == b.routes[e].1 :: !LaterReader(c, b, i, f)
    decreases j
  {
    e := j;
    if i :| 0 <= i < j && b.routes[i].1 == b.routes[j].1 && LaterReader(c, b, i, f) {
      e := EarliestReader(c, b, i, f);
    }
  }

  /** In a tick of `n` frames the impulse placed for reader `j` in a tick of `first` frames is
      heard by `j` alone when the tick is that one. */
  lemma CutHears<S>(c: Setup, b: Bus<S>, j: nat, f: nat, first: nat)
    requires BusInv(b) && AtFormat(c, b) && LaterReader(c, b, j, f) && 0 < first && f < first
    ensures var held := Holding(b, map[b.routes[j].1 := Impulse(c.C(), ReadsAt(b, first, j) + f)]);
            && BusInv(held) && 0 <= f * c.C() < first * c.C()
            && Block(c, held, first)[f * c.C()] != 0.0
  {
    hide BusInv, RouteHears, RouteGain, Holding, Block, HeardSum, ReadsAt, Impulse, Ahead;
    InvIsStored(b);
    var s, at := b.routes[j].1, ReadsAt(b, first, j) + f;
    var held := Holding(b, map[s := Impulse(c.C(), at)]);
    HoldingKeepsInv(b, map[s := Impulse(c.C(), at)]);
    HoldingKeepsFormats(c, b, map[s := Impulse(c.C(), at)]);
    InvIsStored(held);
    ScaleStrict(f, first, c.C());
    ScaleMono(0, f, c.C());
    OthersHearNothing(c, b, j, f, first);
    ReaderHears(c, b, j, f, first);
    LoneSum(c, held, first, |b.mixer.slots|, f * c.C(), j);
    BlockIsHeard(c, held, first, f * c.C());
  }

  lemma OthersHearNothing<S>(c: Setup, b: Bus<S>, j: nat, f: nat, first: nat)
    requires BusInv(b) && j < |b.routes| && 0 < first
    ensures var held := Holding(b, map[b.routes[j].1 := Impulse(c.C(), ReadsAt(b, first, j) + f)]);
            && BusInv(held) && f * c.C() >= 0
            && forall i | 0 <= i < |b.routes| && i != j :: RouteHears(c, held, first, i, f * c.C()) == 0.0
  {
    hide BusInv, RouteHears, Holding, ReadsAt, Impulse;
    InvIsStored(b);
    var s, at := b.routes[j].1, ReadsAt(b, first, j) + f;
    var held := Holding(b, map[s := Impulse(c.C(), at)]);
    HoldingKeepsInv(b, map[s := Impulse(c.C(), at)]);
    InvIsStored(held);
    WholeFrames(f, c.C());
    forall i | 0 <= i < |b.routes| && i != j
      ensures RouteHears(c, held, first, i, f * c.C()) == 0.0
    {
      HearsImpulse(c, b, s, at, first, f, i);
      if b.routes[i].1 == s {
        SameStoreApart(b, first, i, j);
      }
    }
  }

  lemma ReaderHears<S>(c: Setup, b: Bus<S>, j: nat, f: nat, first: nat)
    requires BusInv(b) && j < |b.routes|
    ensures var held := Holding(b, map[b.routes[j].1 := Impulse(c.C(), ReadsAt(b, first, j) + f)]);
            && BusInv(held) && f * c.C() >= 0 && b.routes[j].0.input < |b.mixer.slots|
            && RouteHears(c, held, first, j, f * c.C()) == RouteGain(c, b, j, f)
  {
    hide RouteHears, Holding, ReadsAt, Impulse;
    WholeFrames(f, c.C());
    HearsImpulse(c, b, b.routes[j].1, ReadsAt(b, first, j) + f, first, f, j);
    assert b.mixer.Names(b.routes[j].0);
  }

  lemma SameStoreApart<S>(b: Bus<S>, frames: nat, i: nat, j: nat)
    requires Stored(b) && i < |b.routes| && j < |b.routes| && i != j && b.routes[i].1 == b.routes[j].1 && frames > 0
    ensures ReadsAt(b, frames, i) != ReadsAt(b, frames, j)
  {
    var s := b.routes[i].1;
    AheadGrows(b.routes, if i < j then i else j, if i < j then j else i, s);
    ScaleStrict(Ahead(b.routes, i, s), Ahead(b.routes, j, s), frames);
    ScaleStrict(Ahead(b.routes, j, s), Ahead(b.routes, i, s), frames);
  }

  /** The longer tick does not hear it: a reader that reaches it there is an earlier one, and
      silent in that frame. */
  lemma WholeHearsNothing<S>(c: Setup, b: Bus<S>, j: nat, f: nat, first: nat, n: nat)
    requires BusInv(b) && AtFormat(c, b) && LaterReader(c, b, j, f) && f < first < n
    requires forall i | 0 <= i < j && b.routes[i].1 == b.routes[j].1 :: !LaterReader(c, b, i, f)
    ensures var held := Holding(b, map[b.routes[j].1 := Impulse(c.C(), ReadsAt(b, first, j) + f)]);
            && BusInv(held) && 0 <= f * c.C() < n * c.C()
            && Block(c, held, n)[f * c.C()] == 0.0
  {
    hide BusInv, RouteGain, RouteHears, Holding, Block, HeardSum, ReadsAt, Impulse, Ahead;
    InvIsStored(b);
    var s, at := b.routes[j].1, ReadsAt(b, first, j) + f;
    var held := Holding(b, map[s := Impulse(c.C(), at)]);
    HoldingKeepsInv(b, map[s := Impulse(c.C(), at)]);
    HoldingKeepsFormats(c, b, map[s := Impulse(c.C(), at)]);
    InvIsStored(held);
    ScaleStrict(f, n, c.C());
    ScaleMono(0, f, c.C());
    forall i | 0 <= i < |b.routes|
      ensures RouteHears(c, held, n, i, f * c.C()) == 0.0
    {
      WholeRouteIsSilent(c, b, j, f, first, n, i);
    }
    SilentSum(c, held, n, |b.mixer.slots|, f * c.C());
    BlockIsHeard(c, held, n, f * c.C());
  }

  lemma WholeRouteIsSilent<S>(c: Setup, b: Bus<S>, j: nat, f: nat, first: nat, n: nat, i: nat)
    requires BusInv(b) && LaterReader(c, b, j, f) && f < first < n && i < |b.routes|
    requires i < j && b.routes[i].1 == b.routes[j].1 ==> !LaterReader(c, b, i, f)
    ensures var held := Holding(b, map[b.routes[j].1 := Impulse(c.C(), ReadsAt(b, first, j) + f)]);
            BusInv(held) && RouteHears(c, held, n, i, f * c.C()) == 0.0
  {
    var s := b.routes[j].1;
    HearsImpulse(c, b, s, ReadsAt(b, first, j) + f, n, f, i);
    hide RouteHears, Holding, Impulse;
    if b.routes[i].1 == s && ReadsAt(b, n, i) == ReadsAt(b, first, j) {
      EarlierRank(Ahead(b.routes, i, s), Ahead(b.routes, j, s), first, n);
      if j <= i {
        AheadGrows(b.routes, j, i, s);
      }
    }
  }

  lemma EarlierRank(r: nat, q: nat, first: nat, n: nat)
    requires q > 0 && 0 < first < n && r * n == q * first
    ensures 0 < r < q
  {
    ScaleStrict(0, q, first);
    ScaleStrict(first, n, q);
    if r >= q {
      ScaleMono(q, r, n);
    }
  }

  lemma {:induction false} BlocksStart<S>(c: Setup, b: Bus<S>, first: nat, rest: seq<nat>, k: nat)
    requires Stored(b) && k < |TickBlock(c, b, first)|
    ensures k < |Blocks(c, b, [first] + rest)| && Blocks(c, b, [first] + rest)[k] == TickBlock(c, b, first)[k]
  {
    hide TickBlock, TickTo;
    assert ([first] + rest)[1..] == rest;
    assert Blocks(c, b, [first] + rest) == TickBlock(c, b, first) + Blocks(c, TickTo(c, b, first), rest);
  }

  /** Whenever a route that shares its store with an earlier one is heard in the first part of a
      tick, there are store contents for which cutting the tick there changes the output: for
      any bus, any two live routes on one store, any layout, gains and ramps. */
  lemma SharedCutIsHeard<S>(c: Setup, b: Bus<S>, mid: nat, target: nat, j: nat, f: nat) returns (w: map<S, RingSnapshot>)
    requires BusInv(b) && AtFormat(c, b) && LaterReader(c, b, j, f)
    requires f < c.Owed(b.ticks, mid) < c.Owed(b.ticks, target)
    ensures Blocks(c, Holding(b, w), [mid, target]) != TickBlock(c, Holding(b, w), target)
  {
    var e := EarliestReader(c, b, j, f);
    var first, n := c.Owed(b.ticks, mid), c.Owed(b.ticks, target);
    w := map[b.routes[e].1 := Impulse(c.C(), ReadsAt(b, first, e) + f)];
    CutHears(c, b, e, f, first);
    WholeHearsNothing(c, b, e, f, first, n);
    hide BusInv, Block, Holding;
    InvIsStored(Holding(b, w));
    BlocksStart(c, Holding(b, w), mid, [target], f * c.C());
    assert [mid] + [target] == [mid, target];
  }

  // ---- exactly when the cut is free -----------------------------------------------------------------

  /** Every route is heard from this very frame on. */
  predicate AllHeard<S(==)>(c: Setup, b: Bus<S>) {
    forall i | 0 <= i < |b.routes| :: RouteGain(c, b, i, 0) != 0.0
  }

  lemma {:induction false} SharedHasLater<S>(routes: seq<(RoutePoint, S)>) returns (j: nat)
    requires !DistinctStores(routes)
    ensures j < |routes| && Ahead(routes, j, routes[j].1) > 0
  {
    var i, k :| 0 <= i < k < |routes| && routes[i].1 == routes[k].1;
    AheadGrows(routes, i, k, routes[i].1);
    j := k;
  }

  /** For any bus whose routes are all heard, and any cut inside a tick: over all store contents,
      cutting makes no difference exactly when no two routes share a store. */
  lemma CutIsIrrelevantIffDistinct<S(!new)>(c: Setup, b: Bus<S>, mid: nat, target: nat)
    requires BusInv(b) && AtFormat(c, b) && FadesOut(b) && AllHeard(c, b) && c.Monotone()
    requires mid <= target && 0 < c.Owed(b.ticks, mid) < c.Owed(b.ticks, target)
    ensures (forall w: map<S, RingSnapshot> :: Blocks(c, Holding(b, w), [mid, target]) == TickBlock(c, Holding(b, w), target))
            <==> DistinctStores(b.routes)
  {
    InvIsStored(b);
    hide Blocks, TickBlock, BusInv, Holding;
    if DistinctStores(b.routes) {
      forall w: map<S, RingSnapshot>
        ensures Blocks(c, Holding(b, w), [mid, target]) == TickBlock(c, Holding(b, w), target)
      {
        HoldingKeepsInv(b, w);
        HoldingKeepsFormats(c, b, w);
        TickPartitionIsIrrelevant(c, Holding(b, w), [mid], target);
        assert [mid] + [target] == [mid, target];
      }
    } else {
      var j := SharedHasLater(b.routes);
      var w := SharedCutIsHeard(c, b, mid, target, j, 0);
    }
  }
}
