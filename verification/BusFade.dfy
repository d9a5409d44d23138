/** The click-free cross-fade on the bus: constant power through the fade, and a clean
    hand-over when it ends, for every cut of the ticks it spans. */
module BusFade {
  import opened Audio
  import opened Mixer
  import opened BusModel
  import opened BusInvariant
  import opened BusRuns
  import opened BusSignal

  /** `p`, `n` frames into its rise over `ramp` frames to base gain `g`; steady afterwards. */
  predicate Rising(m: Slots, p: RoutePoint, g: real, ramp: nat, n: nat) {
    && m.Names(p)
    && m.slots[p.input].value.gain == g
    && m.slots[p.input].value.ramp == if n < ramp then Some(GainRamp(0.0, 1.0, ramp, n)) else None
  }

  /** `out`, `n` frames into its fall from `g`; gone from the mixer afterwards. */
  predicate Falling(m: Slots, fading: seq<RoutePoint>, out: RoutePoint, g: real, ramp: nat, n: nat) {
    if n < ramp then
      && out in fading && m.Names(out)
      && m.slots[out.input].value.gain == g
      && m.slots[out.input].value.ramp == Some(GainRamp(1.0, 0.0, ramp, n))
    else !m.Names(out)
  }

  /** A bus `n` frames into an uninterrupted fade between `out` and `p`. */
  ghost predicate FadingAt<S>(b: Bus<S>, p: RoutePoint, out: RoutePoint, g: real, ramp: nat, n: nat) {
    && BusInv(b) && p !in b.fading && ramp > 0
    && Rising(b.mixer, p, g, ramp, n)
    && Falling(b.mixer, b.fading, out, g, ramp, n)
  }

  /** The gain a handle applies `j` frames from now; an unknown handle contributes nothing. */
  function GainOf(c: Setup, m: Slots, p: RoutePoint, j: nat): real {
    if m.Names(p) then m.slots[p.input].value.GainAt(c.trig, j) else 0.0
  }

  // ---- who reads what after a re-point --------------------------------------------------

  lemma {:induction false} ReboundStore<S>(routes: seq<(RoutePoint, S)>, p: RoutePoint, s: S, q: RoutePoint)
    requires StoreOf(routes, p).Some?
    ensures StoreOf(Rebind(routes, p, s), q) == if q == p then Some(s) else StoreOf(routes, q)
  {
    if routes[0].0 == p {
      assert Rebind(routes, p, s)[1..] == routes[1..];
    } else {
      ReboundStore(routes[1..], p, s, q);
      assert Rebind(routes, p, s)[1..] == Rebind(routes[1..], p, s);
    }
  }

  lemma {:induction false} AppendedStore<S>(routes: seq<(RoutePoint, S)>, r: (RoutePoint, S), q: RoutePoint)
    ensures StoreOf(routes + [r], q)
            == if StoreOf(routes, q).Some? then StoreOf(routes, q) else if r.0 == q then Some(r.1) else None
  {
    if routes == [] {
      assert routes + [r] == [r];
    } else {
      AppendedStore(routes[1..], r, q);
      assert (routes + [r])[1..] == routes[1..] + [r];
    }
  }

  /** A point that is not routed is refused, hard or cross-faded: nothing is bound, no strip is
      added, and the store offered is not moved to its live edge. */
  lemma UnknownPointIsRefused<S>(c: Setup, b: Bus<S>, p: RoutePoint, s: S, feed: Feed, ramp: nat)
    requires forall i | 0 <= i < |b.routes| :: b.routes[i].0 != p
    ensures Repoint(c, b, p, s, feed) == b && RepointCrossfade(c, b, p, s, feed, ramp) == b
  {
    StoreOfIsCarries(b.routes, p);
  }

  /** A hard re-point moves one channel, from the live edge of its new store on, and no
      other. */
  lemma RepointMovesOneChannel<S>(c: Setup, b: Bus<S>, p: RoutePoint, s: S, feed: Feed, q: RoutePoint)
    requires BusInv(b) && StoreOf(b.routes, p).Some?
    ensures var b' := Repoint(c, b, p, s, feed);
            && StoreOf(b'.routes, q) == (if q == p then Some(s) else StoreOf(b.routes, q))
            && s in b'.stores && b'.stores[s] == LiveEdge(feed)
            && (forall t | t in b'.stores && t != s :: t in b.stores && b'.stores[t] == b.stores[t])
            && b'.mixer == b.mixer && b'.fading == b.fading
  {
    ReboundStore(b.routes, p, s, q);
    ReboundStore(b.routes, p, s, p);
    StoreOfIsCarries(Rebind(b.routes, p, s), p);
  }

  /** A cross-fade hands the channel to its new store at the live edge, leaves the old store,
      where it stood, to a fresh outgoing strip, and touches no other channel. */
  lemma CrossfadeHandsOver<S>(c: Setup, b: Bus<S>, p: RoutePoint, s: S, feed: Feed, ramp: nat, q: RoutePoint)
    returns (out: RoutePoint)
    requires BusInv(b) && ramp > 0 && StoreOf(b.routes, p).Some?
    ensures out != p && !b.mixer.Names(out)
    ensures var b' := RepointCrossfade(c, b, p, s, feed, ramp);
            && b'.fading == b.fading + [out]
            && StoreOf(b'.routes, p) == Some(s) && StoreOf(b'.routes, out) == StoreOf(b.routes, p)
            && (q != p && q != out ==> StoreOf(b'.routes, q) == StoreOf(b.routes, q))
            && s in b'.stores && b'.stores[s] == LiveEdge(feed)
            && (forall t | t in b'.stores && t != s :: t in b.stores && b'.stores[t] == b.stores[t])
  {
    CrossfadeRoutes(c, b, p, s, feed, ramp);
    var strip, before := b.mixer.Find(p).value, StoreOf(b.routes, p).value;
    out := FadePair(b.mixer, p, strip.id, strip.gain, ramp).1;
    AddKeepsNames(b.mixer, strip.id);
    OnlyNamedAreRouted(b, out);
    hide FadePair, Rebind;
    var routes := b.routes + [(out, before)];
    AppendedStore(b.routes, (out, before), p);
    AppendedStore(b.routes, (out, before), out);
    AppendedStore(b.routes, (out, before), q);
    ReboundStore(routes, p, s, p);
    ReboundStore(routes, p, s, out);
    ReboundStore(routes, p, s, q);
    StoreOfIsCarries(Rebind(routes, p, s), p);
  }

  lemma OnlyNamedAreRouted<S>(b: Bus<S>, q: RoutePoint)
    requires BusInv(b) && !b.mixer.Names(q)
    ensures StoreOf(b.routes, q).None?
  {
    StoreOfIsCarries(b.routes, q);
  }

  /** A fade starts with the channel at the foot of its rise and the old store, on the newest
      outgoing strip, at the top of its fall. */
  lemma CrossfadeStartsFade<S>(c: Setup, b: Bus<S>, p: RoutePoint, s: S, feed: Feed, ramp: nat)
    returns (out: RoutePoint)
    requires BusInv(b) && ramp > 0 && StoreOf(b.routes, p).Some? && p !in b.fading
    ensures b.mixer.Names(p)
    ensures IsOutgoing(b, RepointCrossfade(c, b, p, s, feed, ramp), p, out)
    ensures FadingAt(RepointCrossfade(c, b, p, s, feed, ramp), p, out, b.mixer.slots[p.input].value.gain, ramp, 0)
  {
    hide RepointCrossfade, FadingAt;
    out := CrossfadeHandsOver(c, b, p, s, feed, ramp, p);
    NewestStripFades(c, b, p, s, feed, ramp, out);
  }

  lemma NewestStripFades<S>(c: Setup, b: Bus<S>, p: RoutePoint, s: S, feed: Feed, ramp: nat, out: RoutePoint)
    requires BusInv(b) && ramp > 0 && StoreOf(b.routes, p).Some? && p !in b.fading
    requires RepointCrossfade(c, b, p, s, feed, ramp).fading == b.fading + [out]
    ensures b.mixer.Names(p)
    ensures FadingAt(RepointCrossfade(c, b, p, s, feed, ramp), p, out, b.mixer.slots[p.input].value.gain, ramp, 0)
  {
    CrossfadeRoutes(c, b, p, s, feed, ramp);
    CrossfadeKeepsInv(c, b, p, s, feed, ramp);
    var strip := b.mixer.Find(p).value;
    FadePairStrips(b.mixer, p, strip.id, strip.gain, ramp);
    assert (b.fading + [out])[|b.fading|] == out;
  }

  /** `out` is the strip the cross-fade from `b` to `b'` added, and it reads what `p` read. */
  predicate IsOutgoing<S(==)>(b: Bus<S>, b': Bus<S>, p: RoutePoint, out: RoutePoint) {
    b'.fading == b.fading + [out] && StoreOf(b'.routes, out) == StoreOf(b.routes, p)
  }

  // ---- the fade, tick by tick -----------------------------------------------------------

  lemma MixAddsNoStrip<S>(c: Setup, b: Bus<S>, frames: nat, q: RoutePoint)
    requires BusInv(b) && Mix(c, b, frames).mixer.Names(q)
    ensures b.mixer.Names(q) && !Swept(Advanced(c, b, frames), b.fading, q)
  {
    AdvancedStrips(c, b, frames);
    MixIsSweep(c, b, frames);
    var m := Advanced(c, b, frames);
    assert !Swept(m, b.fading, RoutePoint(q.input, m.generations[q.input]));
  }

  lemma FadingStaysListed<S>(c: Setup, b: Bus<S>, frames: nat, q: RoutePoint)
    requires BusInv(b)
    ensures q in Mix(c, b, frames).fading ==> q in b.fading
  {
    MixIsSweep(c, b, frames);
  }

  lemma {:induction false} SweepKeepsUnfinished<S>(m: Slots, routes: seq<(RoutePoint, S)>, todo: seq<RoutePoint>, q: RoutePoint)
    requires Matched(m, routes) && AllCarried(routes, todo)
    requires q in todo && !FadeDone(m, q)
    ensures q in Sweep(m, routes, todo).2
    decreases |todo|
  {
    var t, rest := todo[0], todo[1..];
    assert todo == [t] + rest;
    assert forall i | 0 <= i < |rest| :: rest[i] == todo[i + 1];
    if FadeDone(m, t) {
      RemoveKeepsMatched(m, routes, t);
      forall i | 0 <= i < |rest|
        ensures Carries(Without(routes, t), rest[i])
      {
        assert Carries(routes, todo[i + 1]);
        CarriedAfterRemoval(m, routes, t, rest[i]);
      }
      var i :| 0 <= i < |rest| && rest[i] == q;
      CarriedAfterRemoval(m, routes, t, q);
      SweepKeepsUnfinished(m.RemoveInput(t), Without(routes, t), rest, q);
    } else if q != t {
      SweepKeepsUnfinished(m, routes, rest, q);
    }
  }

  lemma RisingAdvances<S>(c: Setup, b: Bus<S>, frames: nat, p: RoutePoint, g: real, ramp: nat, n: nat)
    requires BusInv(b) && p !in b.fading && ramp > 0 && Rising(b.mixer, p, g, ramp, n)
    ensures Rising(Mix(c, b, frames).mixer, p, g, ramp, n + frames)
  {
    MixedStrip(c, b, frames, p);
    TaperAdvances(c, b.mixer.slots[p.input].value, frames, 0.0, 1.0, ramp, n);
  }

  /** A ramp under way moves on; one that runs out leaves its end value in the gain. */
  lemma TaperAdvances(c: Setup, strip: Strip, frames: nat, start: real, end: real, ramp: nat, n: nat)
    requires ramp > 0
    requires strip.ramp == if n < ramp then Some(GainRamp(start, end, ramp, n)) else None
    ensures var after := strip.Advance(c.trig, frames);
            && after.ramp == (if n + frames < ramp then Some(GainRamp(start, end, ramp, n + frames)) else None)
            && (end == 1.0 || n + frames < ramp ==> after.gain == strip.gain)
  {}

  lemma FallingAdvances<S>(c: Setup, b: Bus<S>, frames: nat, out: RoutePoint, g: real, ramp: nat, n: nat)
    requires BusInv(b) && ramp > 0 && Falling(b.mixer, b.fading, out, g, ramp, n)
    ensures Falling(Mix(c, b, frames).mixer, Mix(c, b, frames).fading, out, g, ramp, n + frames)
  {
    var b', m := Mix(c, b, frames), Advanced(c, b, frames);
    if n < ramp {
      AdvancedStrips(c, b, frames);
      TaperAdvances(c, b.mixer.slots[out.input].value, frames, 1.0, 0.0, ramp, n);
      assert FadeDone(m, out) <==> n + frames >= ramp;
      if n + frames < ramp {
        MixedStrip(c, b, frames, out);
        MixIsSweep(c, b, frames);
        SweepKeepsUnfinished(m, b.routes, b.fading, out);
        return;
      }
    }
    if b'.mixer.Names(out) {
      MixAddsNoStrip(c, b, frames, out);
    }
  }

  /** A mix of `frames` frames takes the fade `frames` further, whatever the block size. */
  lemma MixAdvancesFade<S>(c: Setup, b: Bus<S>, frames: nat, p: RoutePoint, out: RoutePoint, g: real, ramp: nat, n: nat)
    requires FadingAt(b, p, out, g, ramp, n)
    ensures FadingAt(Mix(c, b, frames), p, out, g, ramp, n + frames)
  {
    MixKeepsInv(c, b, frames);
    FadingStaysListed(c, b, frames, p);
    RisingAdvances(c, b, frames, p, g, ramp, n);
    FallingAdvances(c, b, frames, out, g, ramp, n);
  }

  /** The frames a run of ticks owes. */
  function Elapsed(c: Setup, ticks: nat, targets: seq<nat>): nat
    decreases |targets|
  {
    if targets == [] then 0 else
      c.Owed(ticks, targets[0]) + Elapsed(c, Max(ticks, targets[0]), targets[1..])
  }

  lemma {:induction false} ElapsedTelescopes(c: Setup, ticks: nat, targets: seq<nat>)
    requires c.Monotone()
    ensures c.total(ticks) + Elapsed(c, ticks, targets) == c.total(Furthest(ticks, targets))
    decreases |targets|
  {
    if targets == [] {
    } else {
      ElapsedTelescopes(c, Max(ticks, targets[0]), targets[1..]);
    }
  }

  /** Any run of ticks takes the fade on by exactly the frames it owes. */
  lemma {:induction false} TicksAdvanceFade<S>(c: Setup, b: Bus<S>, targets: seq<nat>,
                                                     p: RoutePoint, out: RoutePoint, g: real, ramp: nat, n: nat, total: nat)
    requires Stored(b) && FadingAt(b, p, out, g, ramp, n)
    requires total == n + Elapsed(c, b.ticks, targets)
    ensures FadingAt(AfterTicks(c, b, targets), p, out, g, ramp, total)
    decreases |targets|
  {
    hide FadingAt, Mix;
    if targets == [] {
    } else {
      var frames := c.Owed(b.ticks, targets[0]);
      TickAdvancesFade(c, b, targets[0], frames, p, out, g, ramp, n);
      TicksAdvanceFade(c, TickTo(c, b, targets[0]), targets[1..], p, out, g, ramp, n + frames, total);
    }
  }

  lemma TickAdvancesFade<S>(c: Setup, b: Bus<S>, target: nat, frames: nat,
                                  p: RoutePoint, out: RoutePoint, g: real, ramp: nat, n: nat)
    requires FadingAt(b, p, out, g, ramp, n)
    requires frames == c.Owed(b.ticks, target)
    ensures Stored(TickTo(c, b, target)) && FadingAt(TickTo(c, b, target), p, out, g, ramp, n + frames)
  {
    MixAdvancesFade(c, b, frames, p, out, g, ramp, n);
  }

  function Power(gain: real): real {
    gain * gain
  }

  /** What the fade sounds like `n` frames in: the two gains at frame `n + j` of the fade
      are those of the tapers there, and their powers sum to the power of the base gain. */
  ghost predicate ConstantPowerAt(c: Setup, m: Slots, p: RoutePoint, out: RoutePoint, g: real, ramp: nat, n: nat, j: nat) {
    var up, down := GainOf(c, m, p, j), GainOf(c, m, out, j);
    && up == Scale(g, Envelope(c.trig, 0.0, 1.0, ramp, n + j))
    && down == Scale(g, Envelope(c.trig, 1.0, 0.0, ramp, n + j))
    && Power(up) + Power(down) == Power(g)
  }

  lemma FadeGains(c: Setup, m: Slots, fading: seq<RoutePoint>, p: RoutePoint, out: RoutePoint,
                  g: real, ramp: nat, n: nat, j: nat)
    requires Rising(m, p, g, ramp, n) && Falling(m, fading, out, g, ramp, n) && c.trig.Pythagorean()
    ensures ConstantPowerAt(c, m, p, out, g, ramp, n, j)
  {
    EqualPower(c.trig, ramp, n + j);
    var u, d := Envelope(c.trig, 0.0, 1.0, ramp, n + j), Envelope(c.trig, 1.0, 0.0, ramp, n + j);
    if n >= ramp {
      assert Scale(g, 1.0) == g && Scale(g, 0.0) == 0.0;
    }
    PowerScales(g, u, d);
  }

  lemma PowerScales(g: real, u: real, d: real)
    requires u * u + d * d == 1.0
    ensures Power(Scale(g, u)) + Power(Scale(g, d)) == Power(g)
  {}

  /** An uninterrupted cross-fade has constant power.  For every cut of the ticks after it,
      the gains on each frame of the fade depend only on how far into the fade the frame
      is, their squares sum to the square of the channel's gain, and once the fade is over
      the channel is back at that gain with no ramp and the outgoing strip is reclaimed. */
  lemma CrossfadeHasConstantPower<S>(c: Setup, b: Bus<S>, p: RoutePoint, s: S, feed: Feed, ramp: nat,
                                           targets: seq<nat>, n: nat, j: nat)
    returns (out: RoutePoint)
    requires BusInv(b) && ramp > 0 && StoreOf(b.routes, p).Some? && p !in b.fading && c.trig.Pythagorean()
    requires n == Elapsed(c, b.ticks, targets)
    ensures b.mixer.Names(p)
    ensures IsOutgoing(b, RepointCrossfade(c, b, p, s, feed, ramp), p, out)
    ensures var e := AfterTicks(c, RepointCrossfade(c, b, p, s, feed, ramp), targets);
            var g := b.mixer.slots[p.input].value.gain;
            && ConstantPowerAt(c, e.mixer, p, out, g, ramp, n, j)
            && Rising(e.mixer, p, g, ramp, n)
            && Falling(e.mixer, e.fading, out, g, ramp, n)
  {
    out := CrossfadeStartsFade(c, b, p, s, feed, ramp);
    CrossfadeRoutes(c, b, p, s, feed, ramp);
    FadeAfterTicks(c, RepointCrossfade(c, b, p, s, feed, ramp), targets, p, out,
                   b.mixer.slots[p.input].value.gain, ramp, n, j);
  }

  lemma FadeAfterTicks<S>(c: Setup, b: Bus<S>, targets: seq<nat>,
                                p: RoutePoint, out: RoutePoint, g: real, ramp: nat, n: nat, j: nat)
    requires FadingAt(b, p, out, g, ramp, 0) && c.trig.Pythagorean()
    requires n == Elapsed(c, b.ticks, targets)
    ensures var e := AfterTicks(c, b, targets);
            && ConstantPowerAt(c, e.mixer, p, out, g, ramp, n, j)
            && Rising(e.mixer, p, g, ramp, n)
            && Falling(e.mixer, e.fading, out, g, ramp, n)
  {
    TicksAdvanceFade(c, b, targets, p, out, g, ramp, 0, n);
    var e := AfterTicks(c, b, targets);
    FadeGains(c, e.mixer, e.fading, p, out, g, ramp, n, j);
  }

  // ---- whether the fade takes over without a step ---------------------------------------------

  /** The old store is heard at the same gain just before and just after a cross-fade is taken
      exactly when the channel's own ramp, if one is in flight, stands at full, or its gain is
      zero: the outgoing strip starts from the channel's base gain, not from where its ramp is. */
  lemma CrossfadeIsSteplessIff<S>(c: Setup, b: Bus<S>, p: RoutePoint, s: S, feed: Feed, ramp: nat)
    returns (out: RoutePoint)
    requires BusInv(b) && ramp > 0 && StoreOf(b.routes, p).Some? && p !in b.fading && c.trig.Quarter()
    ensures b.mixer.Names(p) && IsOutgoing(b, RepointCrossfade(c, b, p, s, feed, ramp), p, out)
    ensures var strip := b.mixer.slots[p.input].value;
            GainOf(c, RepointCrossfade(c, b, p, s, feed, ramp).mixer, out, 0) == GainOf(c, b.mixer, p, 0)
            <==> strip.gain == 0.0 || strip.ramp.None? || strip.ramp.value.EnvelopeAt(c.trig, strip.ramp.value.done) == 1.0
  {
    out := CrossfadeStartsFade(c, b, p, s, feed, ramp);
    var strip, m := b.mixer.slots[p.input].value, RepointCrossfade(c, b, p, s, feed, ramp).mixer;
    FallsFromFull(c, m, RepointCrossfade(c, b, p, s, feed, ramp).fading, out, strip.gain, ramp);
    if strip.ramp.Some? {
      OnlyFullKeeps(strip.gain, strip.ramp.value.EnvelopeAt(c.trig, strip.ramp.value.done));
    }
  }

  lemma FallsFromFull(c: Setup, m: Slots, fading: seq<RoutePoint>, out: RoutePoint, g: real, ramp: nat)
    requires ramp > 0 && Falling(m, fading, out, g, ramp, 0) && c.trig.Quarter()
    ensures GainOf(c, m, out, 0) == g
  {
    RampMovesOneWay(c.trig, 1.0, 0.0, ramp, 0, 0);
    assert Scale(g, 1.0) == g;
  }

  lemma OnlyFullKeeps(g: real, e: real)
    ensures Scale(g, e) == g <==> g == 0.0 || e == 1.0
  {
    if g != 0.0 && e != 1.0 {
      assert g * (e - 1.0) != 0.0;
    }
  }

  /** So a fade taken while the channel is still rising from an earlier one steps the old store
      up to its full gain: taking over is stepless exactly when that rise is over, or the gain
      is zero. */
  lemma CrossfadeDuringRiseIsSteplessIff<S>(c: Setup, b: Bus<S>, p: RoutePoint, before: RoutePoint, g: real, rise: nat, n: nat,
                                            s: S, feed: Feed, ramp: nat)
    returns (out: RoutePoint)
    requires FadingAt(b, p, before, g, rise, n) && ramp > 0 && rise <= MAX_U32
    requires StoreOf(b.routes, p).Some? && c.trig.Quarter()
    ensures IsOutgoing(b, RepointCrossfade(c, b, p, s, feed, ramp), p, out)
    ensures GainOf(c, RepointCrossfade(c, b, p, s, feed, ramp).mixer, out, 0) == GainOf(c, b.mixer, p, 0)
            <==> g == 0.0 || n >= rise
  {
    out := CrossfadeIsSteplessIff(c, b, p, s, feed, ramp);
    if n < rise {
      NotYetFull(c.trig, rise, n);
    }
  }

  lemma NotYetFull(trig: Trig, rise: nat, n: nat)
    requires trig.Quarter() && n < rise <= MAX_U32
    ensures Envelope(trig, 0.0, 1.0, rise, n) < 1.0
  {
    ThetaGrows(trig, n, n, rise);
    RatioBelowOne(n, rise);
    var h := trig.halfPi;
    ScaleSums(1.0, Ratio(n, rise), h);
    BelowWhole(Ratio(n, rise), h);
    assert trig.sin(Theta(trig, n, rise)) < trig.sin(h);
  }

  lemma RatioBelowOne(n: nat, total: nat)
    requires n < total <= MAX_U32
    ensures Ratio(n, total) < 1.0
  {
    var q := n as real / total as real;
    assert q * total as real == n as real;
    if q >= 1.0 {
      ScaleGrows(1.0, q, total as real);
      assert false;
    }
  }

  lemma BelowWhole(q: real, h: real)
    requires q < 1.0 && h > 0.0
    ensures q * h < h
  {
    assert (1.0 - q) * h > 0.0;
  }
}
