/** A source added to the bus is heard at its gain, and changes no other. */
module BusSource {
  import opened Audio
  import opened Mixer
  import opened Store
  import opened BusModel
  import opened BusInvariant
  import opened BusRuns
  import opened BusSignal
  import opened BusShared
  import opened BusFade
  import opened BusSteady

  /** The new point plays its store at its gain for good, and every other channel keeps its gain
      and its store. */
  lemma AddedGain<S>(c: Setup, b: Bus<S>, id: string, s: S, feed: Feed, gain: real, j: nat, q: RoutePoint)
    requires BusInv(b)
    ensures var (b', p) := AddSource(b, id, s, feed, gain);
            && !b.mixer.Names(p) && GainOf(c, b'.mixer, p, j) == gain && StoreOf(b'.routes, p) == Some(s)
            && (b.mixer.Names(q) ==>
                  q != p && GainOf(c, b'.mixer, q, j) == GainOf(c, b.mixer, q, j)
                  && StoreOf(b'.routes, q) == StoreOf(b.routes, q))
  {
    AddKeepsNames(b.mixer, id);
    var p := AddSource(b, id, s, feed, gain).1;
    AppendedStore(b.routes, (p, s), p);
    AppendedStore(b.routes, (p, s), q);
    StoreOfIsCarries(b.routes, p);
    StoreOfIsCarries(b.routes, q);
    UnnamedIsUncarried(b.mixer, b.routes, p);
    NamedIsCarried(b.mixer, b.routes, q);
  }

  lemma UnnamedIsUncarried<S>(m: Slots, routes: seq<(RoutePoint, S)>, p: RoutePoint)
    requires Matched(m, routes) && !m.Names(p)
    ensures !Carries(routes, p)
  {}

  lemma NamedIsCarried<S>(m: Slots, routes: seq<(RoutePoint, S)>, q: RoutePoint)
    requires Matched(m, routes)
    ensures m.Names(q) ==> Carries(routes, q)
  {}

  // ---- in one block, whatever is routed ---------------------------------------------------------

  /** The strips and routes that stood before are as they were; the new route is the last. */
  lemma AddedRoutes<S>(b: Bus<S>, id: string, s: S, feed: Feed, gain: real)
    requires BusInv(b)
    ensures var (b', p) := AddSource(b, id, s, feed, gain);
            && BusInv(b') && b'.routes == b.routes + [(p, s)] && b'.mixer.Names(p) && p.input < |b'.mixer.slots|
            && |b.mixer.slots| <= |b'.mixer.slots| <= Max(|b.mixer.slots|, p.input + 1)
            && b'.mixer.slots[p.input].value.gain == gain && b'.mixer.slots[p.input].value.ramp.None?
            && (p.input < |b.mixer.slots| ==> b.mixer.slots[p.input].None?)
            && |b.mixer.slots| == |b.mixer.generations| && |b'.mixer.slots| == |b'.mixer.generations|
            && (forall x | 0 <= x < |b.mixer.slots| && x != p.input ::
                  b'.mixer.slots[x] == b.mixer.slots[x] && b'.mixer.generations[x] == b.mixer.generations[x])
  {
    AddSourceKeepsInv(b, id, s, feed, gain);
    AddKeepsNames(b.mixer, id);
  }

  lemma {:induction false} PrefixAhead<S>(routes: seq<(RoutePoint, S)>, r: (RoutePoint, S), i: nat, s: S)
    requires i <= |routes|
    ensures Ahead(routes + [r], i, s) == Ahead(routes, i, s)
  {
    if i == 0 {
    } else {
      PrefixAhead(routes, r, i - 1, s);
    }
  }

  /** A store that is routed already is added as it stands. */
  ghost predicate SameFeed<S>(b: Bus<S>, s: S, feed: Feed) {
    s in b.stores ==> b.stores[s] == feed
  }

  lemma OldRouteHears<S>(c: Setup, b: Bus<S>, id: string, s: S, feed: Feed, gain: real, frames: nat, i: nat, k: nat)
    requires BusInv(b) && SameFeed(b, s, feed) && i < |b.routes|
    ensures var b' := AddSource(b, id, s, feed, gain).0;
            BusInv(b') && i < |b'.routes| && RouteHears(c, b', frames, i, k) == RouteHears(c, b, frames, i, k)
  {
    AddedRoutes(b, id, s, feed, gain);
    var (b', p) := AddSource(b, id, s, feed, gain);
    InvIsStored(b);
    InvIsStored(b');
    PrefixAhead(b.routes, (p, s), i, b.routes[i].1);
    assert b'.routes[i] == b.routes[i];
    assert b.mixer.Names(b.routes[i].0) && b'.mixer.Names(b.routes[i].0);
    assert b.routes[i].0.input != p.input;
    hide BusInv, AddSource, Ahead;
  }

  lemma NewRouteHears<S>(c: Setup, b: Bus<S>, id: string, s: S, feed: Feed, gain: real, frames: nat, k: nat)
    requires BusInv(b)
    ensures var b' := AddSource(b, id, s, feed, gain).0;
            && BusInv(b') && |b'.routes| == |b.routes| + 1
            && RouteHears(c, b', frames, |b.routes|, k) == Scale(gain, AddedSample(c, b, s, feed, frames, k))
  {
    AddedRoutes(b, id, s, feed, gain);
    var (b', p) := AddSource(b, id, s, feed, gain);
    PrefixAhead(b.routes, (p, s), |b.routes|, s);
    assert b'.routes[|b.routes|] == (p, s) && b'.stores[s] == feed;
    hide BusInv, Ahead;
  }

  /** What the new source's store gives sample `k` of a tick of `frames` frames: it is read last. */
  function AddedSample<S>(c: Setup, b: Bus<S>, s: S, feed: Feed, frames: nat, k: nat): real {
    feed.window.At(c.C(), (feed.cursor + Ahead(b.routes, |b.routes|, s) * frames) * c.C() + k)
  }

  lemma {:induction false} AddedSum<S>(c: Setup, b: Bus<S>, id: string, s: S, feed: Feed, gain: real, frames: nat, n: nat, k: nat)
    requires BusInv(b) && SameFeed(b, s, feed) && n <= |AddSource(b, id, s, feed, gain).0.mixer.slots|
    ensures var (b', p) := AddSource(b, id, s, feed, gain);
            && BusInv(b')
            && HeardSum(c, b', frames, n, k)
               == HeardSum(c, b, frames, Min(n, |b.mixer.slots|), k)
                  + if p.input < n then Scale(gain, AddedSample(c, b, s, feed, frames, k)) else 0.0
  {
    hide BusInv, AddSource, SlotHears, AddedSample, Scale;
    AddedRoutes(b, id, s, feed, gain);
    if n == 0 {
    } else {
      AddedSum(c, b, id, s, feed, gain, frames, n - 1, k);
      AddedSlot(c, b, id, s, feed, gain, frames, n - 1, k);
    }
  }

  lemma AddedSlot<S>(c: Setup, b: Bus<S>, id: string, s: S, feed: Feed, gain: real, frames: nat, x: nat, k: nat)
    requires BusInv(b) && SameFeed(b, s, feed) && x < |AddSource(b, id, s, feed, gain).0.mixer.slots|
    ensures var (b', p) := AddSource(b, id, s, feed, gain);
            && BusInv(b')
            && (x == p.input ==>
                  && SlotHears(c, b', frames, x, k) == Scale(gain, AddedSample(c, b, s, feed, frames, k))
                  && (x < |b.mixer.slots| ==> SlotHears(c, b, frames, x, k) == 0.0))
            && (x != p.input ==> x < |b.mixer.slots| && SlotHears(c, b', frames, x, k) == SlotHears(c, b, frames, x, k))
  {
    AddedRoutes(b, id, s, feed, gain);
    var (b', p) := AddSource(b, id, s, feed, gain);
    hide BusInv, AddSource, RouteHears, AddedSample;
    var i' := SlotHearsItsRoute(c, b', frames, x, k);
    if x == p.input {
      assert b'.routes[|b.routes|].0.input == x;
      NewRouteHears(c, b, id, s, feed, gain, frames, k);
    } else {
      var i := SlotHearsItsRoute(c, b, frames, x, k);
      assert forall j | 0 <= j < |b.routes| :: b'.routes[j] == b.routes[j];
      if i < |b.routes| {
        OldRouteHears(c, b, id, s, feed, gain, frames, i, k);
      }
    }
  }

  lemma AddedAtFormat<S>(c: Setup, b: Bus<S>, id: string, s: S, feed: Feed, gain: real)
    requires AtFormat(c, b) && feed.format == c.format
    ensures AtFormat(c, AddSource(b, id, s, feed, gain).0)
  {}

  /** Whatever is routed, a block with a source added is the clamped sum of what was heard before
      and `gain` times what the source's store gives after every earlier reader of it. */
  lemma AddedSourceIsHeard<S>(c: Setup, b: Bus<S>, id: string, s: S, feed: Feed, gain: real, frames: nat, k: nat)
    requires BusInv(b) && AtFormat(c, b) && feed.format == c.format && SameFeed(b, s, feed) && k < frames * c.C()
    ensures var b' := AddSource(b, id, s, feed, gain).0;
            && Stored(b')
            && Block(c, b', frames)[k]
               == ClampUnit(HeardSum(c, b, frames, |b.mixer.slots|, k) + Scale(gain, AddedSample(c, b, s, feed, frames, k)))
  {
    var (b', p) := AddSource(b, id, s, feed, gain);
    AddedAtFormat(c, b, id, s, feed, gain);
    hide BusInv, AddSource, HeardSum, AddedSample, Block, Scale;
    AddedRoutes(b, id, s, feed, gain);
    InvIsStored(b');
    AddedSum(c, b, id, s, feed, gain, frames, |b'.mixer.slots|, k);
    BlockIsHeard(c, b', frames, k);
  }

  // ---- and for good -----------------------------------------------------------------------------

  /** Added over a store that is not routed, it adds `gain` times the store's sample to the program
      at every frame to come, however the ticks are cut. */
  lemma AddedSignal<S>(c: Setup, b: Bus<S>, id: string, s: S, feed: Feed, gain: real, k: nat)
    requires Steady(c, b) && feed.format == c.format && Unrouted(b.routes, s)
    ensures var b' := AddSource(b, id, s, feed, gain).0;
            && Steady(c, b') && |b.mixer.slots| == |b.mixer.generations| && |b'.mixer.slots| == |b'.mixer.generations|
            && SignalSum(c, b', |b'.mixer.slots|, k)
               == SignalSum(c, b, |b.mixer.slots|, k) + Scale(gain, feed.window.At(c.C(), feed.cursor * c.C() + k))
  {
    AddSourceKeepsSteady(c, b, id, s, feed, gain);
    AddedRoutes(b, id, s, feed, gain);
    var (b', p) := AddSource(b, id, s, feed, gain);
    AddedSignalSum(c, b, id, s, feed, gain, |b'.mixer.slots|, k);
    hide SignalSum, Steady, AddSource, Scale;
  }

  lemma {:induction false} AddedSignalSum<S>(c: Setup, b: Bus<S>, id: string, s: S, feed: Feed, gain: real, n: nat, k: nat)
    requires BusInv(b) && Unrouted(b.routes, s) && n <= |AddSource(b, id, s, feed, gain).0.mixer.slots|
    ensures var (b', p) := AddSource(b, id, s, feed, gain);
            && |b.mixer.slots| == |b.mixer.generations| && |b'.mixer.slots| == |b'.mixer.generations|
            && SignalSum(c, b', n, k)
               == SignalSum(c, b, Min(n, |b.mixer.slots|), k)
                  + if p.input < n then Scale(gain, feed.window.At(c.C(), feed.cursor * c.C() + k)) else 0.0
  {
    hide BusInv, AddSource, SlotSignal, Scale, RingSnapshot.At, Unrouted;
    AddedRoutes(b, id, s, feed, gain);
    if n == 0 {
    } else {
      AddedSignalSum(c, b, id, s, feed, gain, n - 1, k);
      AddedSlotSignal(c, b, id, s, feed, gain, n - 1, k);
    }
  }

  lemma AddedSlotSignal<S>(c: Setup, b: Bus<S>, id: string, s: S, feed: Feed, gain: real, x: nat, k: nat)
    requires BusInv(b) && Unrouted(b.routes, s) && x < |AddSource(b, id, s, feed, gain).0.mixer.slots|
    ensures var (b', p) := AddSource(b, id, s, feed, gain);
            && |b.mixer.slots| == |b.mixer.generations| && |b'.mixer.slots| == |b'.mixer.generations|
            && (x == p.input ==>
                  && SlotSignal(c, b', x, k) == Scale(gain, feed.window.At(c.C(), feed.cursor * c.C() + k))
                  && (x < |b.mixer.slots| ==> SlotSignal(c, b, x, k) == 0.0))
            && (x != p.input ==> x < |b.mixer.slots| && SlotSignal(c, b', x, k) == SlotSignal(c, b, x, k))
  {
    AddedRoutes(b, id, s, feed, gain);
    var (b', p) := AddSource(b, id, s, feed, gain);
    var q := RoutePoint(x, b'.mixer.generations[x]);
    AppendedStore(b.routes, (p, s), q);
    StoreOfIsCarries(b.routes, q);
    if x == p.input {
      UnnamedIsUncarried(b.mixer, b.routes, q);
    } else if StoreOf(b.routes, q).Some? {
      assert StoreOf(b.routes, q).value != s;
    }
    hide BusInv, Scale;
  }

  // ---- and what is published to it ------------------------------------------------------------------

  /** A publish to a store the bus holds is heard from the very next tick: every channel that reads it
      reads the new window where it would have read the old one, and no other hears a change. */
  lemma PublishedIsHeard<S>(c: Setup, b: Bus<S>, s: S, window: RingSnapshot, frames: nat, i: nat, k: nat)
    requires BusInv(b) && s in b.stores && i < |b.routes|
    ensures var b' := BusRuns.After(c, b, PublishOp(s, window));
            && BusInv(b') && Stored(b) && b'.routes == b.routes && b'.mixer == b.mixer
            && b'.stores[s].cursor == b.stores[s].cursor
            && RouteHears(c, b', frames, i, k)
               == if b.routes[i].1 == s
                  then Scale(RouteGain(c, b, i, k / c.C()), window.At(c.C(), ReadsAt(b, frames, i) * c.C() + k))
                  else RouteHears(c, b, frames, i, k)
  {
    var b' := BusRuns.After(c, b, PublishOp(s, window));
    InvIsStored(b);
    PublishKeepsInv(b, s, window);
    assert b.mixer.Names(b.routes[i].0);
    hide BusInv, Ahead;
  }

  lemma PublishKeepsInv<S>(b: Bus<S>, s: S, window: RingSnapshot)
    requires BusInv(b) && s in b.stores
    ensures BusInv(b.(stores := b.stores[s := b.stores[s].(window := window)]))
  {
    hide Matched, Fading;
  }
}
