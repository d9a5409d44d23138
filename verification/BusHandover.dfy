/** What is read across a re-point: whether the old store goes on where it was, and how long the
    new one is silent. */
module BusHandover {
  import opened Audio
  import opened Store
  import opened Mixer
  import opened BusModel
  import opened BusInvariant
  import opened BusRuns
  import opened BusShared
  import opened BusFade

  // ---- whether the outgoing strip reads on --------------------------------------------------

  lemma {:induction false} AheadAppends<S>(routes: seq<(RoutePoint, S)>, r: (RoutePoint, S), n: nat, t: S)
    requires n <= |routes|
    ensures Ahead(routes + [r], n, t) == Ahead(routes, n, t)
  {
    if n == 0 {
    } else {
      AheadAppends(routes, r, n - 1, t);
    }
  }

  /** Re-binding route `i` moves one reader from its store to the new one. */
  lemma {:induction false} AheadRebound<S>(routes: seq<(RoutePoint, S)>, p: RoutePoint, s: S, i: nat, n: nat, t: S)
    requires DistinctPoints(routes) && i < |routes| && routes[i].0 == p && n <= |routes|
    ensures Ahead(Rebind(routes, p, s), n, t)
            == Ahead(routes, n, t) - (if i < n && routes[i].1 == t then 1 else 0) + (if i < n && s == t then 1 else 0)
  {
    if n == 0 {
    } else {
      AheadRebound(routes, p, s, i, n - 1, t);
      ReboundAt(routes, p, s, n - 1);
    }
  }

  predicate ReadLater<S(==)>(routes: seq<(RoutePoint, S)>, i: nat)
    requires i < |routes|
  {
    exists k :: i < k < |routes| && routes[k].1 == routes[i].1
  }

  lemma {:induction false} NoneLater<S>(routes: seq<(RoutePoint, S)>, i: nat, n: nat)
    requires i < n <= |routes|
    ensures (forall k | i < k < n :: routes[k].1 != routes[i].1)
            <==> Ahead(routes, n, routes[i].1) == Ahead(routes, i, routes[i].1) + 1
    decreases n
  {
    if n == i + 1 {
    } else {
      NoneLater(routes, i, n - 1);
      AheadGrows(routes, i + 1, n - 1, routes[i].1);
    }
  }

  /** The routes a cross-fade leaves: the old store's outgoing strip is last, and its readers before
      it are all the others, and the channel again if it is faded onto the same store. */
  lemma OutgoingIsLast<S>(routes: seq<(RoutePoint, S)>, out: RoutePoint, p: RoutePoint, s: S, i: nat)
    requires i < |routes| && routes[i].0 == p && DistinctPoints(routes + [(out, routes[i].1)])
    ensures var r, t, last := Rebind(routes + [(out, routes[i].1)], p, s), routes[i].1, |routes|;
            && |r| == last + 1 && r[last] == (out, t)
            && Ahead(r, last, t) == Ahead(routes, last, t) - (if s == t then 0 else 1)
  {
    var whole, t, last := routes + [(out, routes[i].1)], routes[i].1, |routes|;
    assert whole[last].0 != whole[i].0;
    ReboundAt(whole, p, s, last);
    AheadAppends(routes, (out, t), last, t);
    AheadRebound(whole, p, s, i, last, t);
  }

  lemma OutgoingRoutes<S>(c: Setup, b: Bus<S>, p: RoutePoint, s: S, feed: Feed, ramp: nat, i: nat) returns (out: RoutePoint)
    requires BusInv(b) && ramp > 0 && i < |b.routes| && b.routes[i].0 == p
    ensures var b' := RepointCrossfade(c, b, p, s, feed, ramp);
            && b'.routes == Rebind(b.routes + [(out, b.routes[i].1)], p, s)
            && b'.fading == b.fading + [out] && Stored(b')
    ensures DistinctPoints(b.routes + [(out, b.routes[i].1)])
  {
    PointIsRouted(b.routes, i);
    CrossfadeRoutes(c, b, p, s, feed, ramp);
    var strip := b.mixer.Find(p).value;
    out := FadePair(b.mixer, p, strip.id, strip.gain, ramp).1;
    AddKeepsNames(b.mixer, strip.id);
    AppendedPointsDiffer(b, out, b.routes[i].1);
    hide FadePair, RepointCrossfade, Rebind, BusInv, DistinctPoints;
  }

  /** The store a cross-fade takes over from: its cursor, and the readers before the outgoing strip. */
  lemma OutgoingStands<S>(c: Setup, b: Bus<S>, p: RoutePoint, s: S, feed: Feed, ramp: nat, i: nat)
    requires BusInv(b) && ramp > 0 && i < |b.routes| && b.routes[i].0 == p
    requires s in b.stores ==> feed == b.stores[s]
    ensures var b', t, last := RepointCrossfade(c, b, p, s, feed, ramp), b.routes[i].1, |b.routes|;
            && |b'.routes| == last + 1 && b'.routes[last].1 == t && b'.fading == b.fading + [b'.routes[last].0]
            && t in b.stores && t in b'.stores
            && b'.stores[t] == (if s == t then LiveEdge(b.stores[t]) else b.stores[t])
            && Ahead(b'.routes, last, t) == Ahead(b.routes, last, t) - (if s == t then 0 else 1)
  {
    PointIsRouted(b.routes, i);
    var other := CrossfadeHandsOver(c, b, p, s, feed, ramp, p);
    var out := OutgoingRoutes(c, b, p, s, feed, ramp, i);
    InvIsStored(b);
    hide BusInv, RepointCrossfade, Rebind, Ahead, DistinctPoints, StoreOf;
    OutgoingIsLast(b.routes, out, p, s, i);
    var b' := RepointCrossfade(c, b, p, s, feed, ramp);
    assert b'.routes[|b.routes|].1 in b'.stores;
  }

  lemma PointIsRouted<S>(routes: seq<(RoutePoint, S)>, i: nat)
    requires DistinctPoints(routes) && i < |routes|
    ensures StoreOf(routes, routes[i].0) == Some(routes[i].1)
  {
    StoreOfIsCarries(routes, routes[i].0);
  }

  lemma AppendedPointsDiffer<S>(b: Bus<S>, out: RoutePoint, t: S)
    requires BusInv(b) && !b.mixer.Names(out)
    ensures DistinctPoints(b.routes + [(out, t)])
  {
    forall i | 0 <= i < |b.routes|
      ensures b.routes[i].0 != out
    {
      assert b.mixer.Names(b.routes[i].0);
    }
  }

  /** The outgoing cursor is said to be continued from where the channel left off.  In every tick
      to come the outgoing strip reads what the channel would have, exactly when the new store is
      another one and no later route reads the old one: the seek to the live edge moves the cursor
      the two strips share, and the outgoing strip reads last. */
  lemma OutgoingReadsOnIff<S>(c: Setup, b: Bus<S>, p: RoutePoint, s: S, feed: Feed, ramp: nat, i: nat)
    requires BusInv(b) && ramp > 0 && i < |b.routes| && b.routes[i].0 == p
    requires s in b.stores ==> feed == b.stores[s]
    ensures var b' := RepointCrossfade(c, b, p, s, feed, ramp);
            && Stored(b') && |b'.routes| == |b.routes| + 1
            && ((forall n: nat | n > 0 :: ReadsAt(b', n, |b.routes|) == ReadsAt(b, n, i))
                <==> s != b.routes[i].1 && !ReadLater(b.routes, i))
  {
    OutgoingStands(c, b, p, s, feed, ramp, i);
    CrossfadeKeepsInv(c, b, p, s, feed, ramp);
    InvIsStored(b);
    InvIsStored(RepointCrossfade(c, b, p, s, feed, ramp));
    hide BusInv, RepointCrossfade, Ahead;
    var b', t, last := RepointCrossfade(c, b, p, s, feed, ramp), b.routes[i].1, |b.routes|;
    NoneLater(b.routes, i, last);
    AheadGrows(b.routes, i, last, t);
    var (x, late, y, was) := (b'.stores[t].cursor, Ahead(b'.routes, last, t), b.stores[t].cursor, Ahead(b.routes, i, t));
    forall n: nat
      ensures ReadsAt(b', n, last) == Line(x, late, n) && ReadsAt(b, n, i) == Line(y, was, n)
    {}
    hide ReadsAt, LiveEdge;
    LinesAgreeIff(x, late, y, was);
  }

  /** Frame `x` and `a` reads of `n` frames on. */
  function Line(x: int, a: int, n: nat): int {
    x + a * n
  }

  lemma LinesAgreeIff(x: int, a: int, y: int, b: int)
    ensures (forall n: nat | n > 0 :: Line(x, a, n) == Line(y, b, n)) <==> x == y && a == b
  {
    if forall n: nat | n > 0 :: Line(x, a, n) == Line(y, b, n) {
      assert Line(x, a, 1) == Line(y, b, 1) && Line(x, a, 2) == Line(y, b, 2);
    }
  }

  /** So a cross-fade takes the old store over unbroken, at the gain and from the frame where the
      channel was, exactly when the channel's own ramp stands at full or its gain is zero, the new
      store is another one, and no later route reads the old one. */
  lemma CrossfadeIsSeamlessIff<S>(c: Setup, b: Bus<S>, p: RoutePoint, s: S, feed: Feed, ramp: nat, i: nat)
    requires BusInv(b) && ramp > 0 && i < |b.routes| && b.routes[i].0 == p && p !in b.fading && c.trig.Quarter()
    requires s in b.stores ==> feed == b.stores[s]
    ensures var b' := RepointCrossfade(c, b, p, s, feed, ramp);
            var strip := b.mixer.slots[p.input].value;
            && b.mixer.Names(p) && Stored(b') && |b'.routes| == |b.routes| + 1
            && (GainOf(c, b'.mixer, b'.routes[|b.routes|].0, 0) == GainOf(c, b.mixer, p, 0)
                && (forall n: nat | n > 0 :: ReadsAt(b', n, |b.routes|) == ReadsAt(b, n, i))
                <==> && (strip.gain == 0.0 || strip.ramp.None? || strip.ramp.value.EnvelopeAt(c.trig, strip.ramp.value.done) == 1.0)
                     && s != b.routes[i].1 && !ReadLater(b.routes, i))
  {
    PointIsRouted(b.routes, i);
    OutgoingStands(c, b, p, s, feed, ramp, i);
    OutgoingReadsOnIff(c, b, p, s, feed, ramp, i);
    var out := CrossfadeIsSteplessIff(c, b, p, s, feed, ramp);
    hide BusInv, RepointCrossfade, GainOf, ReadsAt;
    var b' := RepointCrossfade(c, b, p, s, feed, ramp);
    assert b'.fading[|b.fading|] == out;
  }

  // ---- what a live edge sounds like -----------------------------------------------------------

  predicate IsSilent(s: seq<real>) {
    forall k | 0 <= k < |s| :: s[k] == 0.0
  }

  /** Frames at or past the head of a window are silence. */
  lemma PastHeadIsSilent(w: RingSnapshot, channels: nat, start: int, frames: nat)
    requires channels > 0 && |w.samples| % channels == 0 && start >= w.HeadFrame(channels)
    ensures IsSilent(w.Slice(channels, start, frames))
  {
    FrameCount(|w.samples|, channels);
    var q := |w.samples| / channels;
    Distribute(w.base, q, channels);
    ScaleMono(w.base + q, start, channels);
    assert start * channels >= w.base * channels + |w.samples|;
    hide RingSnapshot.HeadFrame;
    forall k | 0 <= k < |w.Slice(channels, start, frames)|
      ensures w.Slice(channels, start, frames)[k] == 0.0
    {
      assert !w.Holds(channels, start * channels + k);
      assert w.Slice(channels, start, frames)[k] == w.At(channels, start * channels + k);
    }
  }

  /** A cross-fade onto the store the channel already reads: both strips read at or past its head,
      silence until it is published to, whatever was playing. */
  lemma SameStoreFadeIsSilent<S>(c: Setup, b: Bus<S>, p: RoutePoint, feed: Feed, ramp: nat, i: nat, n: nat, j: nat)
    requires BusInv(b) && ramp > 0 && i < |b.routes| && b.routes[i].0 == p
    requires b.routes[i].1 in b.stores && feed == b.stores[b.routes[i].1]
    requires feed.format == c.format && |feed.window.samples| % c.C() == 0
    ensures var b' := RepointCrossfade(c, b, p, b.routes[i].1, feed, ramp);
            && Stored(b')
            && (j < |b'.routes| && b'.routes[j].1 == b.routes[i].1 ==> IsSilent(feed.window.Slice(c.C(), ReadsAt(b', n, j), n)))
  {
    OutgoingStands(c, b, p, b.routes[i].1, feed, ramp, i);
    CrossfadeKeepsInv(c, b, p, b.routes[i].1, feed, ramp);
    InvIsStored(RepointCrossfade(c, b, p, b.routes[i].1, feed, ramp));
    hide BusInv, RepointCrossfade;
    var b' := RepointCrossfade(c, b, p, b.routes[i].1, feed, ramp);
    if j < |b'.routes| && b'.routes[j].1 == b.routes[i].1 {
      ScaleMono(0, Ahead(b'.routes, j, b.routes[i].1), n);
      var at := ReadsAt(b', n, j);
      assert at >= feed.window.HeadFrame(c.C());
      hide RingSnapshot.Slice, ReadsAt, LiveEdge;
      PastHeadIsSilent(feed.window, c.C(), at, n);
    }
  }

  /** The seek is said to make a channel read fresh audio, not silence.  Parked at the live edge it
      reads exactly what is appended from then on: with `more` published since, every frame past
      it, and every one the capacity no longer holds, is silence. */
  lemma LiveEdgeHears(feed: Feed, capacity: nat, more: seq<real>, frames: nat, k: nat)
    requires var C := feed.format.Channels(); |feed.window.samples| % C == 0 && |more| % C == 0 && k < frames * C
    ensures var C := feed.format.Channels();
            var now := Written(feed.window, capacity, C, feed.window.HeadFrame(C), more);
            now.Slice(C, LiveEdge(feed).cursor, frames)[k]
            == if |more| - capacity * C <= k < |more| then more[k] else 0.0
  {
    var C, w := feed.format.Channels(), feed.window;
    var now := Written(w, capacity, C, w.HeadFrame(C), more);
    assert now.Slice(C, LiveEdge(feed).cursor, frames)[k] == now.At(C, w.HeadFrame(C) * C + k);
    hide LiveEdge, Written, RingSnapshot.Slice;
    AppendedAt(w, capacity, C, more, k);
  }

  /** Sample `k` past the old head, once `more` is appended. */
  lemma AppendedAt(w: RingSnapshot, capacity: nat, channels: nat, more: seq<real>, k: nat)
    requires channels > 0 && |w.samples| % channels == 0 && |more| % channels == 0
    ensures Written(w, capacity, channels, w.HeadFrame(channels), more).At(channels, w.HeadFrame(channels) * channels + k)
            == if |more| - capacity * channels <= k < |more| then more[k] else 0.0
  {
    AppendIsWritten(w, capacity, channels, more);
    var next := w.samples + more;
    var overflow := Max(|next| - capacity * channels, 0);
    hide Written;
    FrameCount(|w.samples|, channels);
    Distribute(w.base, |w.samples| / channels, channels);
    assert w.HeadFrame(channels) * channels == w.base * channels + |w.samples|;
    WholeSum(|w.samples|, |more|, channels);
    OverflowIsWhole(|next|, overflow, channels);
    Distribute(w.base, overflow / channels, channels);
  }

  lemma OverflowIsWhole(len: nat, overflow: nat, channels: nat)
    requires channels > 0 && overflow <= len && len % channels == 0 && (len - overflow) % channels == 0
    ensures overflow / channels * channels == overflow
  {
    FrameCount(len, channels);
    FrameCount(len - overflow, channels);
    Distribute(len / channels, (len - overflow) / channels, channels);
    WholeFrames(len / channels - (len - overflow) / channels, channels);
  }

  /** With nothing published yet the whole of it is silence. */
  lemma RepointStartsSilent<S>(c: Setup, b: Bus<S>, p: RoutePoint, s: S, feed: Feed, frames: nat)
    requires BusInv(b) && StoreOf(b.routes, p).Some? && |feed.window.samples| % feed.format.Channels() == 0
    ensures var b', C := Repoint(c, b, p, s, feed), feed.format.Channels();
            s in b'.stores && IsSilent(b'.stores[s].window.Slice(C, b'.stores[s].cursor, frames))
  {
    RepointMovesOneChannel(c, b, p, s, feed, p);
    PastHeadIsSilent(feed.window, feed.format.Channels(), LiveEdge(feed).cursor, frames);
  }
}
