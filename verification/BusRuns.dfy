/** The bus invariant over every run of control operations and ticks. */
module BusRuns {
  import opened Audio
  import opened Mixer
  import opened MixerHandles
  import opened BusModel
  import opened BusInvariant

  /** `m'` is `m` with nothing changed but the blocks submitted and the ramps' progress. */
  ghost predicate SameShape(m: Slots, m': Slots) {
    && |m'.slots| == |m.slots| && m'.generations == m.generations && m'.free == m.free
    && (forall x | 0 <= x < |m.slots| :: m'.slots[x].Some? <==> m.slots[x].Some?)
    && (forall x | 0 <= x < |m.slots| && m.slots[x].Some? :: m'.slots[x].value.routed == m.slots[x].value.routed)
  }

  lemma SameShapeKeepsMatched<S>(m: Slots, m': Slots, routes: seq<(RoutePoint, S)>)
    requires Matched(m, routes) && SameShape(m, m')
    ensures Matched(m', routes)
  {}

  /** The strips of `m'` are those of `m` but for their latest blocks. */
  ghost predicate SameStrips(m: Slots, m': Slots) {
    && SameShape(m, m')
    && forall x | 0 <= x < |m.slots| && m.slots[x].Some? ::
         m'.slots[x].value == m.slots[x].value.(latest := m'.slots[x].value.latest)
  }

  lemma SubmitKeepsStrips(m: Slots, m': Slots, p: RoutePoint, samples: seq<real>)
    requires SameStrips(m, m')
    ensures SameStrips(m, m'.Submit(p, samples))
  {}

  /** Pulling changes nothing of a strip but its latest block. */
  lemma {:induction false} PullKeepsStrips<S>(c: Setup, b: Bus<S>, frames: nat, i: nat)
    requires Stored(b) && i <= |b.routes| && |b.mixer.slots| == |b.mixer.generations|
    ensures SameStrips(b.mixer, Pull(c, b, frames, i).mixer)
  {
    if i == 0 {
    } else {
      PullKeepsStrips(c, b, frames, i - 1);
      var before := Pull(c, b, frames, i - 1);
      var (p, s) := b.routes[i - 1];
      var feed := before.stores[s];
      SubmitKeepsStrips(b.mixer, before.mixer, p, feed.window.Slice(c.C(), feed.cursor, frames));
      hide Slots.Submit, SameStrips;
    }
  }

  /** Feeding and advancing leave every strip in place, `frames` later on its ramp. */
  lemma AdvancedStrips<S>(c: Setup, b: Bus<S>, frames: nat)
    requires Matched(b.mixer, b.routes) && Stored(b)
    ensures var m := Advanced(c, b, frames);
            && SameShape(b.mixer, m)
            && forall x | 0 <= x < |m.slots| && m.slots[x].Some? ::
                 m.slots[x].value == b.mixer.slots[x].value.Advance(c.trig, frames).(latest := m.slots[x].value.latest)
  {
    PullKeepsStrips(c, b, frames, |b.routes|);
    AdvanceKeepsStrips(c, b.mixer, Pull(c, b, frames, |b.routes|).mixer, frames);
  }

  lemma AdvanceKeepsStrips(c: Setup, m: Slots, m': Slots, frames: nat)
    requires SameStrips(m, m')
    ensures var a := m'.AdvanceRamps(c.trig, frames);
            && SameShape(m, a)
            && forall x | 0 <= x < |a.slots| && a.slots[x].Some? ::
                 a.slots[x].value == m.slots[x].value.Advance(c.trig, frames).(latest := a.slots[x].value.latest)
  {
    var a := m'.AdvanceRamps(c.trig, frames);
    forall x | 0 <= x < |a.slots| && a.slots[x].Some?
      ensures a.slots[x].value == m.slots[x].value.Advance(c.trig, frames).(latest := a.slots[x].value.latest)
    {
      assert a.slots[x].value == m'.slots[x].value.Advance(c.trig, frames);
    }
  }

  lemma MixIsSweep<S>(c: Setup, b: Bus<S>, frames: nat)
    requires Matched(b.mixer, b.routes) && Stored(b) && AllCarried(b.routes, b.fading)
    ensures var b' := Mix(c, b, frames);
            && Matched(Advanced(c, b, frames), b.routes)
            && IsSweep(Advanced(c, b, frames), b.routes, b.fading, b'.mixer, b'.routes, b'.fading)
  {
    AdvancedStrips(c, b, frames);
    SameShapeKeepsMatched(b.mixer, Advanced(c, b, frames), b.routes);
    SweepRemovesFinished(Advanced(c, b, frames), b.routes, b.fading);
  }

  /** A sweep leaves a proper fading list behind: what it keeps is routed and unfinished. */
  lemma SweepLeavesFading<S>(m: Slots, routes: seq<(RoutePoint, S)>, todo: seq<RoutePoint>,
                                   m': Slots, routes': seq<(RoutePoint, S)>, kept: seq<RoutePoint>)
    requires Matched(m, routes) && AllCarried(routes, todo)
    requires IsSweep(m, routes, todo, m', routes', kept)
    requires forall x | 0 <= x < |m.slots| && m.slots[x].Some? && m.slots[x].value.ramp.Some? ::
               !m.slots[x].value.ramp.value.Complete()
    ensures Fading(m', routes', kept)
  {
    forall i | 0 <= i < |kept|
      ensures Carries(routes', kept[i]) && !FadeDone(m', kept[i])
      ensures m'.Names(kept[i]) ==> m'.slots[kept[i].input] == m.slots[kept[i].input]
    {
      var p := kept[i];
      var j :| 0 <= j < |todo| && todo[j] == p;
      var k :| 0 <= k < |routes| && routes[k].0 == p;
      assert routes[k] in routes';
      var l :| 0 <= l < |routes'| && routes'[l] == routes[k];
      assert m.Names(p) && !Swept(m, todo, RoutePoint(p.input, m.generations[p.input]));
    }
  }

  lemma MixKeepsStored<S>(c: Setup, b: Bus<S>, frames: nat)
    requires Stored(b)
    requires forall r :: r in Mix(c, b, frames).routes ==> r in b.routes
    ensures Stored(Mix(c, b, frames))
  {
    var b' := Mix(c, b, frames);
    forall i | 0 <= i < |b'.routes|
      ensures b'.routes[i].1 in b'.stores
    {
      assert b'.routes[i] in b.routes;
    }
  }

  lemma MixKeepsInv<S>(c: Setup, b: Bus<S>, frames: nat)
    requires BusInv(b)
    ensures BusInv(Mix(c, b, frames))
  {
    var m, b' := Advanced(c, b, frames), Mix(c, b, frames);
    AdvancedStrips(c, b, frames);
    MixIsSweep(c, b, frames);
    SweepLeavesFading(m, b.routes, b.fading, b'.mixer, b'.routes, b'.fading);
    MixKeepsStored(c, b, frames);
  }

  lemma AddKeepsNames(m: Slots, id: string)
    requires m.WellFormed()
    ensures var (m', p) := m.AddInput(id);
            && m'.WellFormed() && m'.Names(p) && !m.Names(p)
            && (forall q | m.Names(q) :: m'.Names(q) && q != p && q.input != p.input && m'.slots[q.input] == m.slots[q.input])
            && (forall x | 0 <= x < |m'.slots| && m'.slots[x].Some? && x != p.input ::
                  x < |m.slots| && m.slots[x] == m'.slots[x] && m.generations[x] == m'.generations[x])
  {
    AddKeepsWellFormed(m, id);
  }

  lemma AddSourceKeepsInv<S>(b: Bus<S>, id: string, s: S, feed: Feed, gain: real)
    requires BusInv(b)
    ensures BusInv(AddSource(b, id, s, feed, gain).0)
  {
    AddKeepsNames(b.mixer, id);
    var (b', p) := AddSource(b, id, s, feed, gain);
    AppendKeepsMatched(b.mixer, b.routes, id, s, gain);
    AppendKeepsCarried(b.routes, (p, s), b.fading);
  }

  /** Adding a strip and routing it leaves every other strip as it was. */
  lemma AddRoutedStrip(m: Slots, id: string, gain: real)
    requires m.WellFormed()
    ensures var (m1, p) := m.AddInput(id);
            var m' := m1.RouteToProgram(p, gain);
            && m'.WellFormed() && m'.Names(p) && m'.slots[p.input].value.routed && !m.Names(p)
            && (forall q | m.Names(q) :: m'.Names(q) && q != p && m'.slots[q.input] == m.slots[q.input])
            && (forall x | 0 <= x < |m'.slots| && m'.slots[x].Some? && x != p.input ::
                  x < |m.slots| && m.slots[x].Some? && m.generations[x] == m'.generations[x])
            && RoutePoint(p.input, m'.generations[p.input]) == p
  {
    AddKeepsNames(m, id);
    hide Slots.AddInput;
  }

  lemma AppendKeepsMatched<S>(m: Slots, routes: seq<(RoutePoint, S)>, id: string, s: S, gain: real)
    requires Matched(m, routes)
    ensures var (m1, p) := m.AddInput(id);
            Matched(m1.RouteToProgram(p, gain), routes + [(p, s)])
  {
    AddRoutedStrip(m, id, gain);
    var (m1, p) := m.AddInput(id);
    var m', routes' := m1.RouteToProgram(p, gain), routes + [(p, s)];
    hide Slots.AddInput, Slots.RouteToProgram, Slots.WellFormed;
    forall x | 0 <= x < |m'.slots| && m'.slots[x].Some?
      ensures Carries(routes', RoutePoint(x, m'.generations[x]))
    {
      if x == p.input {
        assert routes'[|routes|].0 == p;
      } else {
        var i :| 0 <= i < |routes| && routes[i].0 == RoutePoint(x, m.generations[x]);
        assert routes'[i].0 == routes[i].0;
      }
    }
  }

  lemma AppendKeepsCarried<S>(routes: seq<(RoutePoint, S)>, r: (RoutePoint, S), points: seq<RoutePoint>)
    requires forall i | 0 <= i < |points| :: Carries(routes, points[i])
    ensures forall i | 0 <= i < |points| :: Carries(routes + [r], points[i])
  {
    forall i | 0 <= i < |points|
      ensures Carries(routes + [r], points[i])
    {
      assert Carries(routes, points[i]);
      var k :| 0 <= k < |routes| && routes[k].0 == points[i];
      assert (routes + [r])[k].0 == points[i];
    }
  }

  /** Re-binding a route changes no point. */
  lemma RebindKeepsMatched<S>(m: Slots, routes: seq<(RoutePoint, S)>, p: RoutePoint, s: S)
    requires Matched(m, routes)
    ensures Matched(m, Rebind(routes, p, s))
    ensures forall q :: Carries(Rebind(routes, p, s), q) == Carries(routes, q)
  {
    RebindKeepsPoints(routes, p, s);
    var r := Rebind(routes, p, s);
    forall q
      ensures Carries(r, q) == Carries(routes, q)
    {
      if Carries(routes, q) {
        var i :| 0 <= i < |routes| && routes[i].0 == q;
        assert r[i].0 == q;
      }
    }
  }

  lemma RepointKeepsInv<S>(c: Setup, b: Bus<S>, p: RoutePoint, s: S, feed: Feed)
    requires BusInv(b)
    ensures BusInv(Repoint(c, b, p, s, feed))
  {
    RebindKeepsMatched(b.mixer, b.routes, p, s);
    RebindKeepsPoints(b.routes, p, s);
  }

  /** A fade pair adds the outgoing strip and gives `p` its ramp; nothing else moves. */
  lemma FadePairStrips(m: Slots, p: RoutePoint, id: string, gain: real, ramp: nat)
    requires m.WellFormed() && m.Names(p)
    ensures var (m', out) := FadePair(m, p, id, gain, ramp);
            && SameShape(m.AddInput(id).0.RouteToProgram(out, gain), m')
            && out == m.AddInput(id).1
            && m'.Names(out) && !m.Names(out)
            && m'.slots[out.input].value == Strip(id, gain, true, None, Some(GainRamp.Down(ramp)))
            && m'.Names(p) && m'.slots[p.input].value == m.slots[p.input].value.(ramp := Some(GainRamp.Up(ramp)))
            && (forall q | m.Names(q) && q != p :: m'.Names(q) && m'.slots[q.input] == m.slots[q.input])
  {
    AddKeepsNames(m, id);
  }

  lemma FadePairKeepsMatched<S>(m: Slots, routes: seq<(RoutePoint, S)>,
                                      p: RoutePoint, id: string, gain: real, s: S, ramp: nat)
    requires Matched(m, routes) && m.Names(p)
    ensures var (m', out) := FadePair(m, p, id, gain, ramp);
            Matched(m', routes + [(out, s)])
  {
    var (m', out) := FadePair(m, p, id, gain, ramp);
    FadePairStrips(m, p, id, gain, ramp);
    AppendKeepsMatched(m, routes, id, s, gain);
    SameShapeKeepsMatched(m.AddInput(id).0.RouteToProgram(out, gain), m', routes + [(out, s)]);
  }

  /** A named strip whose ramp has frames left. */
  predicate StillFading(m: Slots, p: RoutePoint) {
    m.Names(p) && m.slots[p.input].value.ramp.Some? && !m.slots[p.input].value.ramp.value.Complete()
  }

  lemma FadingIsStillFading<S>(m: Slots, routes: seq<(RoutePoint, S)>, fading: seq<RoutePoint>)
    requires Matched(m, routes) && Fading(m, routes, fading)
    ensures forall i | 0 <= i < |fading| :: StillFading(m, fading[i])
  {
    MatchedNames(m, routes, fading);
    hide Matched;
  }

  lemma StillFadingIsFading<S>(m: Slots, routes: seq<(RoutePoint, S)>, fading: seq<RoutePoint>)
    requires forall i, j | 0 <= i < j < |fading| :: fading[i] != fading[j]
    requires forall i | 0 <= i < |fading| :: Carries(routes, fading[i]) && StillFading(m, fading[i])
    ensures Fading(m, routes, fading)
  {
    hide Carries;
  }

  lemma MatchedNames<S>(m: Slots, routes: seq<(RoutePoint, S)>, points: seq<RoutePoint>)
    requires Matched(m, routes) && forall i | 0 <= i < |points| :: Carries(routes, points[i])
    ensures forall i | 0 <= i < |points| :: m.Names(points[i])
  {
    forall i | 0 <= i < |points|
      ensures m.Names(points[i])
    {
      assert Carries(routes, points[i]);
    }
  }

  lemma FadePairKeepsFading<S>(m: Slots, routes: seq<(RoutePoint, S)>, fading: seq<RoutePoint>,
                                     p: RoutePoint, id: string, gain: real, s: S, ramp: nat)
    requires Matched(m, routes) && Fading(m, routes, fading) && m.Names(p) && ramp > 0
    ensures var (m', out) := FadePair(m, p, id, gain, ramp);
            Fading(m', routes + [(out, s)], fading + [out])
  {
    var (m', out) := FadePair(m, p, id, gain, ramp);
    FadePairStrips(m, p, id, gain, ramp);
    FadingIsStillFading(m, routes, fading);
    AppendKeepsCarried(routes, (out, s), fading);
    assert (routes + [(out, s)])[|routes|].0 == out;
    hide FadePair, Matched, Carries, SameShape;
    StillFadingIsFading(m', routes + [(out, s)], fading + [out]);
  }

  /** The route table a cross-fade leaves is stored and carries the same points. */
  lemma CrossfadeRoutes<S>(c: Setup, b: Bus<S>, p: RoutePoint, s: S, feed: Feed, ramp: nat)
    requires BusInv(b) && ramp > 0 && StoreOf(b.routes, p).Some?
    ensures b.mixer.Names(p)
    ensures var before, strip := StoreOf(b.routes, p).value, b.mixer.Find(p).value;
            var b' := RepointCrossfade(c, b, p, s, feed, ramp);
            var (m, out) := FadePair(b.mixer, p, strip.id, strip.gain, ramp);
            && b'.mixer == m && b'.fading == b.fading + [out] && b'.ticks == b.ticks
            && b'.routes == Rebind(b.routes + [(out, before)], p, s)
            && Stored(b')
  {
    StoreOfIsCarries(b.routes, p);
    var before, strip := StoreOf(b.routes, p).value, b.mixer.Find(p).value;
    var (m, out) := FadePair(b.mixer, p, strip.id, strip.gain, ramp);
    var routes := b.routes + [(out, before)];
    RebindKeepsPoints(routes, p, s);
    var i :| 0 <= i < |b.routes| && b.routes[i] == (p, before);
    forall j | 0 <= j < |routes|
      ensures Rebind(routes, p, s)[j].1 in b.stores[s := LiveEdge(feed)]
    {
      assert routes[j].1 in b.stores;
    }
  }

  lemma CrossfadeKeepsInv<S>(c: Setup, b: Bus<S>, p: RoutePoint, s: S, feed: Feed, ramp: nat)
    requires BusInv(b)
    ensures BusInv(RepointCrossfade(c, b, p, s, feed, ramp))
  {
    if ramp == 0 {
      RepointKeepsInv(c, b, p, s, feed);
    } else if StoreOf(b.routes, p).Some? {
      CrossfadeRoutes(c, b, p, s, feed, ramp);
      hide Matched, Fading, FadePair, RepointCrossfade, Rebind, Slots.Find, Slots.Names, Stored;
      var before, strip := StoreOf(b.routes, p).value, b.mixer.Find(p).value;
      FadePairKeepsBooks(b.mixer, b.routes, b.fading, p, strip.id, strip.gain, before, s, ramp);
    } else {
      assert RepointCrossfade(c, b, p, s, feed, ramp) == b;
    }
  }

  lemma FadePairKeepsBooks<S>(m: Slots, routes: seq<(RoutePoint, S)>, fading: seq<RoutePoint>,
                              p: RoutePoint, id: string, gain: real, before: S, s: S, ramp: nat)
    requires Matched(m, routes) && Fading(m, routes, fading) && m.Names(p) && ramp > 0
    ensures var (m', out) := FadePair(m, p, id, gain, ramp);
            var r := Rebind(routes + [(out, before)], p, s);
            Matched(m', r) && Fading(m', r, fading + [out])
  {
    hide Matched, Fading, FadePair, Rebind, Slots.Names;
    var (m', out) := FadePair(m, p, id, gain, ramp);
    var r := routes + [(out, before)];
    FadePairKeepsMatched(m, routes, p, id, gain, before, ramp);
    FadePairKeepsFading(m, routes, fading, p, id, gain, before, ramp);
    RebindKeepsMatched(m', r, p, s);
    SamePointsKeepFading(m', r, Rebind(r, p, s), fading + [out]);
  }

  lemma SamePointsKeepFading<S>(m: Slots, routes: seq<(RoutePoint, S)>, routes': seq<(RoutePoint, S)>, fading: seq<RoutePoint>)
    requires Fading(m, routes, fading) && forall q :: Carries(routes', q) == Carries(routes, q)
    ensures Fading(m, routes', fading)
  {
    hide Carries, FadeDone;
  }

  // ---- bounded strips ------------------------------------------------------------

  /** Strip contents do not matter to the storage bound. */
  lemma SameOccupancyKeepsPeak(m: Slots, m': Slots, peak: nat)
    requires WithinPeak(m, peak)
    requires |m'.slots| == |m.slots| && m'.generations == m.generations && m'.free == m.free
    requires forall x | 0 <= x < |m.slots| :: m'.slots[x].Some? <==> m.slots[x].Some?
    ensures WithinPeak(m', peak) && Occupied(m') == Occupied(m)
  {
    assert Occupied(m') == Occupied(m);
    assert Tombstones(m') == Tombstones(m);
  }

  lemma {:induction false} SweepStaysWithinPeak<S>(m: Slots, routes: seq<(RoutePoint, S)>, todo: seq<RoutePoint>, peak: nat)
    requires WithinPeak(m, peak)
    ensures WithinPeak(Sweep(m, routes, todo).0, peak)
    decreases |todo|
  {
    if todo == [] {
    } else {
      if FadeDone(m, todo[0]) {
        RemoveStaysWithinPeak(m, todo[0], peak);
        SweepStaysWithinPeak(m.RemoveInput(todo[0]), Without(routes, todo[0]), todo[1..], peak);
      } else {
        SweepStaysWithinPeak(m, routes, todo[1..], peak);
      }
    }
  }

  function PeakWith(peak: nat, m: Slots): nat {
    if |Occupied(m)| > peak then |Occupied(m)| else peak
  }

  // ---- every run -------------------------------------------------------------------

  /** One thing that can happen to a running bus: a control operation, a tick, or a decode
      thread publishing a new window into a routed store.  `feed` is the state of a store
      the bus does not hold yet. */
  datatype Event<!S> =
    | AddSourceOp(id: string, s: S, feed: Feed, gain: real)
    | RepointOp(p: RoutePoint, s: S, feed: Feed)
    | CrossfadeOp(p: RoutePoint, s: S, feed: Feed, ramp: nat)
    | TickToOp(target: nat)
    | TickOp
    | PublishOp(s: S, window: Store.RingSnapshot)

  /** A bus with everything it has emitted and the most strips it ever had live. */
  datatype Run<!S(==)> = Run(bus: Bus<S>, emitted: seq<real>, peak: nat)

  function FeedOf<S>(b: Bus<S>, s: S, feed: Feed): Feed {
    if s in b.stores then b.stores[s] else feed
  }

  function Target<S>(b: Bus<S>, e: Event<S>): nat
    requires e.TickToOp? || e.TickOp?
  {
    if e.TickToOp? then e.target else b.ticks + 1
  }

  ghost function After<S>(c: Setup, b: Bus<S>, e: Event<S>): Bus<S>
    requires Stored(b)
  {
    match e
    case AddSourceOp(id, s, feed, gain) => AddSource(b, id, s, FeedOf(b, s, feed), gain).0
    case RepointOp(p, s, feed) => Repoint(c, b, p, s, FeedOf(b, s, feed))
    case CrossfadeOp(p, s, feed, ramp) => RepointCrossfade(c, b, p, s, FeedOf(b, s, feed), ramp)
    case TickToOp(target) => TickTo(c, b, target)
    case TickOp => TickTo(c, b, b.ticks + 1)
    case PublishOp(s, window) => if s in b.stores then b.(stores := b.stores[s := b.stores[s].(window := window)]) else b
  }

  ghost function Step<S>(c: Setup, r: Run<S>, e: Event<S>): Run<S>
    requires Stored(r.bus)
  {
    var bus := After(c, r.bus, e);
    var out := if e.TickToOp? || e.TickOp? then TickBlock(c, r.bus, Target(r.bus, e)) else [];
    Run(bus, r.emitted + out, PeakWith(r.peak, bus.mixer))
  }

  /** The invariant of every run: strips and routes match, every fade has a ramp, strip
      storage is within its peak plus tombstones, and exactly the clock's frames are out. */
  ghost predicate Good<S>(c: Setup, r: Run<S>) {
    && BusInv(r.bus)
    && WithinPeak(r.bus.mixer, r.peak)
    && |r.emitted| == c.total(r.bus.ticks) * c.C()
  }

  ghost function FreshRun<S>(): Run<S> {
    Run(Bus(Slots([], [], []), 0, [], [], map[]), [], 0)
  }

  lemma AddSourceStaysWithinPeak<S>(b: Bus<S>, id: string, s: S, feed: Feed, gain: real, peak: nat)
    requires WithinPeak(b.mixer, peak)
    ensures var m := AddSource(b, id, s, feed, gain).0.mixer;
            WithinPeak(m, PeakWith(peak, m))
  {
    AddStaysWithinPeak(b.mixer, id, peak);
    var m1 := b.mixer.AddInput(id).0;
    SameOccupancyKeepsPeak(m1, AddSource(b, id, s, feed, gain).0.mixer, PeakWith(peak, m1));
  }

  lemma CrossfadeStaysWithinPeak<S>(c: Setup, b: Bus<S>, p: RoutePoint, s: S, feed: Feed, ramp: nat, peak: nat)
    requires BusInv(b) && WithinPeak(b.mixer, peak)
    ensures var m := RepointCrossfade(c, b, p, s, feed, ramp).mixer;
            WithinPeak(m, PeakWith(peak, m))
  {
    if ramp > 0 && StoreOf(b.routes, p).Some? {
      CrossfadeRoutes(c, b, p, s, feed, ramp);
      var strip := b.mixer.Find(p).value;
      AddStaysWithinPeak(b.mixer, strip.id, peak);
      AddKeepsNames(b.mixer, strip.id);
      var m1 := b.mixer.AddInput(strip.id).0;
      SameOccupancyKeepsPeak(m1, FadePair(b.mixer, p, strip.id, strip.gain, ramp).0, PeakWith(peak, m1));
    }
  }

  lemma TickStaysWithinPeak<S>(c: Setup, b: Bus<S>, frames: nat, peak: nat)
    requires BusInv(b) && WithinPeak(b.mixer, peak)
    ensures WithinPeak(Mix(c, b, frames).mixer, peak)
  {
    var m := Advanced(c, b, frames);
    AdvancedStrips(c, b, frames);
    SameOccupancyKeepsPeak(b.mixer, m, peak);
    SweepStaysWithinPeak(m, b.routes, b.fading, peak);
  }

  lemma ControlKeepsGood<S>(c: Setup, b: Bus<S>, e: Event<S>, peak: nat)
    requires BusInv(b) && WithinPeak(b.mixer, peak) && !e.TickOp? && !e.TickToOp?
    ensures BusInv(After(c, b, e)) && After(c, b, e).ticks == b.ticks
    ensures WithinPeak(After(c, b, e).mixer, PeakWith(peak, After(c, b, e).mixer))
  {
    match e
    case AddSourceOp(id, s, feed, gain) =>
      AddSourceKeepsInv(b, id, s, FeedOf(b, s, feed), gain);
      AddSourceStaysWithinPeak(b, id, s, FeedOf(b, s, feed), gain, peak);
    case RepointOp(p, s, feed) =>
      RepointKeepsInv(c, b, p, s, FeedOf(b, s, feed));
    case CrossfadeOp(p, s, feed, ramp) =>
      CrossfadeKeepsInv(c, b, p, s, FeedOf(b, s, feed), ramp);
      CrossfadeStaysWithinPeak(c, b, p, s, FeedOf(b, s, feed), ramp, peak);
    case PublishOp(s, window) =>
  }

  lemma PeakOnlyGrows(m: Slots, peak: nat)
    requires WithinPeak(m, peak)
    ensures WithinPeak(m, PeakWith(peak, m))
  {}

  lemma GoodIsStored<S>(c: Setup, r: Run<S>)
    requires Good(c, r)
    ensures Stored(r.bus)
  {}

  lemma StepKeepsGood<S>(c: Setup, r: Run<S>, e: Event<S>)
    requires Good(c, r) && c.Monotone()
    ensures Good(c, Step(c, r, e))
  {
    GoodIsStored(c, r);
    hide BusInv, WithinPeak, TickTo, TickBlock, AddSource, Repoint, RepointCrossfade, Setup.Monotone;
    if e.TickOp? || e.TickToOp? {
      TickKeepsGood(c, r.bus, Target(r.bus, e), r.peak);
      PeakOnlyGrows(TickTo(c, r.bus, Target(r.bus, e)).mixer, r.peak);
    } else {
      ControlKeepsGood(c, r.bus, e, r.peak);
    }
  }

  lemma TickKeepsGood<S>(c: Setup, b: Bus<S>, target: nat, peak: nat)
    requires BusInv(b) && WithinPeak(b.mixer, peak) && c.Monotone()
    ensures BusInv(TickTo(c, b, target)) && WithinPeak(TickTo(c, b, target).mixer, peak)
    ensures c.total(b.ticks) * c.C() + |TickBlock(c, b, target)|
         == c.total(TickTo(c, b, target).ticks) * c.C()
  {
    hide Mix, Matched, Fading, WithinPeak;
    var frames := c.Owed(b.ticks, target);
    MixKeepsInv(c, b, frames);
    TickStaysWithinPeak(c, b, frames, peak);
    Distribute(c.total(b.ticks), frames, c.C());
  }

  ghost predicate Reaches<S>(c: Setup, r: Run<S>, events: seq<Event<S>>, t: Run<S>)
    decreases |events|
  {
    if events == [] then r == t else Stored(r.bus) && Reaches(c, Step(c, r, events[0]), events[1..], t)
  }

  /** Every run of adds, re-points, cross-fades, ticks and publishes keeps the bus good:
      the storage is bounded by concurrency, not by how many fades have run. */
  lemma {:induction false} RunsStayGood<S>(c: Setup, r: Run<S>, events: seq<Event<S>>, t: Run<S>)
    requires c.Monotone() && Good(c, r) && Reaches(c, r, events, t)
    ensures Good(c, t)
    decreases |events|
  {
    if events == [] {
    } else {
      StepKeepsGood(c, r, events[0]);
      RunsStayGood(c, Step(c, r, events[0]), events[1..], t);
    }
  }

  lemma FreshRunIsGood<S>(c: Setup)
    requires c.Monotone()
    ensures Good<S>(c, FreshRun())
  {
    assert Occupied(Slots([], [], [])) == {};
    assert 0 * c.C() == 0;
  }
}
