/** The program bus is a function of the absolute frame: what it emits does not depend on
    how its ticks are cut. */
module BusSignal {
  import opened Audio
  import opened Mixer
  import opened BusModel
  import opened BusInvariant
  import opened BusRuns

  /** No two routes share a store (and so a read cursor). */
  ghost predicate DistinctStores<S>(routes: seq<(RoutePoint, S)>) {
    forall i, j | 0 <= i < j < |routes| :: routes[i].1 != routes[j].1
  }

  /** Every outgoing strip is on its way to silence. */
  ghost predicate FadesOut<S>(b: Bus<S>) {
    forall i | 0 <= i < |b.fading| && b.mixer.Names(b.fading[i]) ::
      var ramp := b.mixer.slots[b.fading[i].input].value.ramp;
      ramp.Some? ==> ramp.value.end == 0.0
  }

  ghost predicate Steady<S>(c: Setup, b: Bus<S>) {
    BusInv(b) && AtFormat(c, b) && DistinctStores(b.routes) && FadesOut(b)
  }

  /** What a strip reading `feed` adds to the sample `k` samples ahead of now. */
  function Heard(c: Setup, strip: Strip, feed: Feed, k: nat): real {
    Scale(strip.GainAt(c.trig, k / c.C()), feed.window.At(c.C(), feed.cursor * c.C() + k))
  }

  ghost function SlotSignal<S>(c: Setup, b: Bus<S>, x: nat, k: nat): real
    requires x < |b.mixer.slots| == |b.mixer.generations|
  {
    var store := StoreOf(b.routes, RoutePoint(x, b.mixer.generations[x]));
    if b.mixer.slots[x].Some? && store.Some? && store.value in b.stores
    then Heard(c, b.mixer.slots[x].value, b.stores[store.value], k) else 0.0
  }

  ghost function SignalSum<S>(c: Setup, b: Bus<S>, n: nat, k: nat): real
    requires n <= |b.mixer.slots| == |b.mixer.generations|
  {
    if n == 0 then 0.0 else SignalSum(c, b, n - 1, k) + SlotSignal(c, b, n - 1, k)
  }

  /** The program sample `k` samples ahead of now, if nothing is published or re-routed. */
  ghost function Signal<S>(c: Setup, b: Bus<S>, k: nat): real
    requires |b.mixer.slots| == |b.mixer.generations|
  {
    ClampUnit(SignalSum(c, b, |b.mixer.slots|, k))
  }

  lemma {:induction false} StoreOfRoute<S>(routes: seq<(RoutePoint, S)>, i: nat)
    requires DistinctPoints(routes) && i < |routes|
    ensures StoreOf(routes, routes[i].0) == Some(routes[i].1)
  {
    if i == 0 {
    } else {
      assert routes[1..][i - 1] == routes[i];
      StoreOfRoute(routes[1..], i - 1);
    }
  }

  // ---- one block is the signal -----------------------------------------------------

  /** No two routes meet, in the mixer or at a store. */
  ghost predicate Separate<S>(b: Bus<S>) {
    && Stored(b)
    && (forall i | 0 <= i < |b.routes| :: b.mixer.Names(b.routes[i].0))
    && (forall i, j | 0 <= i < |b.routes| && 0 <= j < |b.routes| && i != j ::
          b.routes[i].0.input != b.routes[j].0.input && b.routes[i].1 != b.routes[j].1)
  }

  lemma DistinctIsSeparate<S>(b: Bus<S>)
    requires BusInv(b) && DistinctStores(b.routes)
    ensures Separate(b)
  {}

  /** The strip of route `j` with its block of this tick submitted. */
  ghost function Fed<S>(c: Setup, b: Bus<S>, frames: nat, j: nat): Option<Strip>
    requires Separate(b) && j < |b.routes|
  {
    var (p, s) := b.routes[j];
    var feed := b.stores[s];
    Some(b.mixer.slots[p.input].value.(latest := Some(feed.window.Slice(c.C(), feed.cursor, frames))))
  }

  /** After `i` pulls, route `j` has been read (once, at the cursor the tick began with)
      exactly when it is among them. */
  ghost predicate ReadOnce<S>(c: Setup, b: Bus<S>, frames: nat, i: nat, j: nat)
    requires Separate(b) && i <= |b.routes| && j < |b.routes|
  {
    var r := Pull(c, b, frames, i);
    var (p, s) := b.routes[j];
    && r.mixer.Names(p)
    && r.mixer.slots[p.input] == (if j < i then Fed(c, b, frames, j) else b.mixer.slots[p.input])
    && r.stores[s] == (if j < i then b.stores[s].(cursor := b.stores[s].cursor + frames) else b.stores[s])
  }

  lemma {:induction false} PullReads<S>(c: Setup, b: Bus<S>, frames: nat, i: nat, j: nat)
    requires Separate(b) && AtFormat(c, b) && i <= |b.routes| && j < |b.routes|
    ensures ReadOnce(c, b, frames, i, j)
  {
    hide Pull;
    if i == 0 {
      PullStart(c, b, frames);
    } else {
      PullReads(c, b, frames, i - 1, j);
      PullReads(c, b, frames, i - 1, i - 1);
      PullNext(c, b, frames, i - 1);
    }
  }

  /** The route that reads into an occupied slot. */
  lemma RouteOfSlot<S>(b: Bus<S>, x: nat) returns (i: nat)
    requires BusInv(b) && x < |b.mixer.slots| && b.mixer.slots[x].Some?
    ensures i < |b.routes| && b.routes[i].0 == RoutePoint(x, b.mixer.generations[x])
    ensures StoreOf(b.routes, RoutePoint(x, b.mixer.generations[x])) == Some(b.routes[i].1)
  {
    i :| 0 <= i < |b.routes| && b.routes[i].0 == RoutePoint(x, b.mixer.generations[x]);
    StoreOfRoute(b.routes, i);
  }

  /** What one slot holds, and so contributes, once every route is pulled. */
  lemma PulledSlot<S>(c: Setup, b: Bus<S>, frames: nat, x: nat)
    requires BusInv(b) && AtFormat(c, b) && DistinctStores(b.routes) && x < |b.mixer.slots|
    ensures var m := Pull(c, b, frames, |b.routes|).mixer;
            && |m.slots| == |b.mixer.slots|
            && (m.slots[x].Some? <==> b.mixer.slots[x].Some?)
            && SlotFrames(c.C(), m.slots[x]) == (if m.slots[x].Some? then frames else 0)
            && (m.slots[x].Some? ==> forall k | 0 <= k < frames * c.C() ::
                  m.slots[x].value.Contribution(c.trig, c.C(), k) == SlotSignal(c, b, x, k))
  {
    PullKeepsStrips(c, b, frames, |b.routes|);
    if b.mixer.slots[x].Some? {
      var i := RouteOfSlot(b, x);
      DistinctIsSeparate(b);
      PullReads(c, b, frames, |b.routes|, i);
      FedContribution(c, b.mixer.slots[x].value, b.stores[b.routes[i].1], frames);
    }
  }

  lemma FedContribution(c: Setup, strip: Strip, feed: Feed, frames: nat)
    requires strip.routed
    ensures var fed := strip.(latest := Some(feed.window.Slice(c.C(), feed.cursor, frames)));
            && SlotFrames(c.C(), Some(fed)) == frames
            && forall k | 0 <= k < frames * c.C() :: fed.Contribution(c.trig, c.C(), k) == Heard(c, strip, feed, k)
  {}

  ghost predicate AnyLive(m: Slots, n: nat)
    requires n <= |m.slots|
  {
    exists x :: 0 <= x < n && m.slots[x].Some?
  }

  /** Slot by slot, the bus sum is the signal sum and the bus is one block long. */
  lemma {:induction false} SlotwiseSum<S>(c: Setup, b: Bus<S>, m: Slots, n: nat, k: nat)
    requires |m.slots| == |b.mixer.slots| == |b.mixer.generations| && n <= |m.slots|
    requires forall x | 0 <= x < n ::
               SlotSignal(c, b, x, k) == if m.slots[x].Some? then m.slots[x].value.Contribution(c.trig, c.C(), k) else 0.0
    ensures m.BusSum(c.trig, c.C(), n, k) == SignalSum(c, b, n, k)
  {
    if n == 0 {
    } else {
      SlotwiseSum(c, b, m, n - 1, k);
    }
  }

  lemma {:induction false} SlotwiseFrames(channels: nat, m: Slots, frames: nat, n: nat)
    requires channels > 0 && n <= |m.slots|
    requires forall x | 0 <= x < n :: SlotFrames(channels, m.slots[x]) == if m.slots[x].Some? then frames else 0
    ensures m.MixFrames(channels, n) == if AnyLive(m, n) then frames else 0
  {
    if n == 0 {
    } else {
      SlotwiseFrames(channels, m, frames, n - 1);
      if AnyLive(m, n - 1) {
        var x :| 0 <= x < n - 1 && m.slots[x].Some?;
        assert AnyLive(m, n);
      }
    }
  }

  lemma {:induction false} EmptySum(trig: Trig, channels: nat, m: Slots, n: nat, k: nat)
    requires channels > 0 && n <= |m.slots|
    requires !AnyLive(m, n)
    ensures m.BusSum(trig, channels, n, k) == 0.0
  {
    if n == 0 {
    } else {
      EmptySum(trig, channels, m, n - 1, k);
    }
  }

  /** One mixed block is the next stretch of the signal. */
  lemma BlockIsSignal<S>(c: Setup, b: Bus<S>, frames: nat, k: nat)
    requires BusInv(b) && AtFormat(c, b) && DistinctStores(b.routes) && k < frames * c.C()
    ensures Block(c, b, frames)[k] == Signal(c, b, k)
  {
    var n, m := |b.mixer.slots|, Pull(c, b, frames, |b.routes|).mixer;
    PullKeepsStrips(c, b, frames, |b.routes|);
    forall x | 0 <= x < n
      ensures SlotSignal(c, b, x, k) == if m.slots[x].Some? then m.slots[x].value.Contribution(c.trig, c.C(), k) else 0.0
      ensures SlotFrames(c.C(), m.slots[x]) == if m.slots[x].Some? then frames else 0
    {
      PulledSlot(c, b, frames, x);
    }
    SlotwiseSum(c, b, m, n, k);
    SlotwiseFrames(c.C(), m, frames, n);
    if !AnyLive(m, n) {
      EmptySum(c.trig, c.C(), m, n, k);
    }
  }

  // ---- a tick only shifts the signal -------------------------------------------------

  lemma HeardShifts(c: Setup, strip: Strip, feed: Feed, frames: nat, k: nat)
    ensures frames * c.C() >= 0
    ensures Heard(c, strip.Advance(c.trig, frames), feed.(cursor := feed.cursor + frames), k)
         == Heard(c, strip, feed, frames * c.C() + k)
  {
    WholeFrames(frames, c.C());
    SplitOffset(frames, k, c.C());
    AdvanceShiftsGain(c.trig, strip, frames, k / c.C());
    Distribute(feed.cursor, frames, c.C());
  }

  lemma LatestIsIrrelevant(c: Setup, strip: Strip, latest: Option<seq<real>>, feed: Feed, k: nat)
    ensures Heard(c, strip.(latest := latest), feed, k) == Heard(c, strip, feed, k)
  {}

  /** A finished outgoing strip is silent from the end of its ramp on. */
  lemma FinishedFadeIsSilent(c: Setup, strip: Strip, feed: Feed, frames: nat, k: nat)
    requires strip.ramp.Some? && strip.ramp.value.end == 0.0
    requires strip.Advance(c.trig, frames).ramp.None?
    ensures frames * c.C() >= 0
    ensures Heard(c, strip, feed, frames * c.C() + k) == 0.0
  {
    WholeFrames(frames, c.C());
    SplitOffset(frames, k, c.C());
    assert strip.ramp.value.EnvelopeAt(c.trig, strip.ramp.value.done + (frames + k / c.C())) == 0.0;
  }

  /** A strip that a mix retires was on its way to silence. */
  lemma SweptWasFading<S>(c: Setup, b: Bus<S>, frames: nat, q: RoutePoint)
    requires BusInv(b) && FadesOut(b) && Swept(Advanced(c, b, frames), b.fading, q)
    ensures b.mixer.Names(q)
    ensures var strip := b.mixer.slots[q.input].value;
            strip.ramp.Some? && strip.ramp.value.end == 0.0 && strip.Advance(c.trig, frames).ramp.None?
  {
    AdvancedStrips(c, b, frames);
    var i :| 0 <= i < |b.fading| && b.fading[i] == q;
    assert !FadeDone(b.mixer, q);
    assert b.mixer.Names(b.fading[i]);
  }

  /** A route a mix keeps still reads its store, where the pull left it. */
  lemma MixedStore<S>(c: Setup, b: Bus<S>, frames: nat, i: nat)
    requires BusInv(b) && AtFormat(c, b) && DistinctStores(b.routes) && i < |b.routes|
    requires !Swept(Advanced(c, b, frames), b.fading, b.routes[i].0)
    ensures var b', p, s := Mix(c, b, frames), b.routes[i].0, b.routes[i].1;
            && StoreOf(b'.routes, p) == Some(s) && s in b'.stores
            && b'.stores[s] == b.stores[s].(cursor := b.stores[s].cursor + frames)
  {
    var b' := Mix(c, b, frames);
    DistinctIsSeparate(b);
    PullReads(c, b, frames, |b.routes|, i);
    var j := MixedRoute(c, b, frames, i);
    hide BusInv, Pull, Sweep, Advanced, Swept, DistinctStores;
    StoreOfRoute(b'.routes, j);
  }

  lemma MixedRoute<S>(c: Setup, b: Bus<S>, frames: nat, i: nat) returns (j: nat)
    requires BusInv(b) && i < |b.routes| && !Swept(Advanced(c, b, frames), b.fading, b.routes[i].0)
    ensures var b' := Mix(c, b, frames);
            j < |b'.routes| && b'.routes[j] == b.routes[i] && DistinctPoints(b'.routes)
  {
    MixIsSweep(c, b, frames);
    hide Advanced, Sweep, Pull, Swept;
    var b' := Mix(c, b, frames);
    assert b.routes[i] in b'.routes;
    j :| 0 <= j < |b'.routes| && b'.routes[j] == b.routes[i];
  }

  /** A strip a mix keeps, `frames` later on its ramp. */
  lemma MixedStrip<S>(c: Setup, b: Bus<S>, frames: nat, p: RoutePoint)
    requires BusInv(b) && b.mixer.Names(p) && !Swept(Advanced(c, b, frames), b.fading, p)
    ensures var b' := Mix(c, b, frames);
            && |b'.mixer.slots| == |b'.mixer.generations|
            && b'.mixer.Names(p)
            && b'.mixer.slots[p.input].value ==
               b.mixer.slots[p.input].value.Advance(c.trig, frames).(latest := b'.mixer.slots[p.input].value.latest)
  {
    AdvancedStrips(c, b, frames);
    MixIsSweep(c, b, frames);
    assert p == RoutePoint(p.input, Advanced(c, b, frames).generations[p.input]);
  }

  lemma KeptSlotShifts<S>(c: Setup, b: Bus<S>, frames: nat, i: nat, k: nat)
    requires BusInv(b) && AtFormat(c, b) && DistinctStores(b.routes) && i < |b.routes|
    requires !Swept(Advanced(c, b, frames), b.fading, b.routes[i].0)
    ensures var b', p, s := Mix(c, b, frames), b.routes[i].0, b.routes[i].1;
            && frames * c.C() >= 0
            && p.input < |b'.mixer.slots| == |b'.mixer.generations|
            && SlotSignal(c, b', p.input, k) == Heard(c, b.mixer.slots[p.input].value, b.stores[s], frames * c.C() + k)
  {
    var p, s := b.routes[i].0, b.routes[i].1;
    var strip, feed, b' := b.mixer.slots[p.input].value, b.stores[s], Mix(c, b, frames);
    MixedStrip(c, b, frames, p);
    MixedStore(c, b, frames, i);
    assert p == RoutePoint(p.input, b'.mixer.generations[p.input]);
    MixedSoundShifts(c, strip, b'.mixer.slots[p.input].value, feed, b'.stores[s], frames, k);
  }

  lemma MixedSoundShifts(c: Setup, strip: Strip, strip': Strip, feed: Feed, feed': Feed, frames: nat, k: nat)
    requires strip' == strip.Advance(c.trig, frames).(latest := strip'.latest)
    requires feed' == feed.(cursor := feed.cursor + frames)
    ensures frames * c.C() >= 0 && Heard(c, strip', feed', k) == Heard(c, strip, feed, frames * c.C() + k)
  {
    HeardShifts(c, strip, feed, frames, k);
    LatestIsIrrelevant(c, strip.Advance(c.trig, frames), strip'.latest, feed', k);
  }

  lemma MixKeepsSlotCount<S>(c: Setup, b: Bus<S>, frames: nat)
    requires BusInv(b)
    ensures var b' := Mix(c, b, frames); |b'.mixer.slots| == |b'.mixer.generations| == |b.mixer.slots|
  {
    AdvancedStrips(c, b, frames);
    MixIsSweep(c, b, frames);
  }

  /** A mix only moves the origin of what each slot will sound like; a slot it reclaims had
      nothing more to say. */
  lemma SlotSignalShifts<S>(c: Setup, b: Bus<S>, frames: nat, x: nat, k: nat)
    requires Steady(c, b) && x < |b.mixer.slots|
    ensures var b' := Mix(c, b, frames);
            && |b'.mixer.slots| == |b'.mixer.generations| == |b.mixer.slots|
            && frames * c.C() >= 0
            && SlotSignal(c, b', x, k) == SlotSignal(c, b, x, frames * c.C() + k)
  {
    WholeFrames(frames, c.C());
    MixKeepsSlotCount(c, b, frames);
    if b.mixer.slots[x].Some? {
      var i := RouteOfSlot(b, x);
      if Swept(Advanced(c, b, frames), b.fading, b.routes[i].0) {
        SweptWasFading(c, b, frames, b.routes[i].0);
        FinishedFadeIsSilent(c, b.mixer.slots[x].value, b.stores[b.routes[i].1], frames, k);
        EmptiedSlot(c, b, frames, x);
      } else {
        KeptSlotShifts(c, b, frames, i, k);
      }
    } else {
      EmptiedSlot(c, b, frames, x);
    }
  }

  lemma EmptiedSlot<S>(c: Setup, b: Bus<S>, frames: nat, x: nat)
    requires BusInv(b) && x < |b.mixer.slots|
    requires b.mixer.slots[x].None? || Swept(Advanced(c, b, frames), b.fading, RoutePoint(x, b.mixer.generations[x]))
    ensures x < |Mix(c, b, frames).mixer.slots| && Mix(c, b, frames).mixer.slots[x].None?
  {
    AdvancedStrips(c, b, frames);
    MixIsSweep(c, b, frames);
  }

  lemma {:induction false} SumShifts<S>(c: Setup, b: Bus<S>, frames: nat, n: nat, k: nat)
    requires Steady(c, b) && n <= |b.mixer.slots|
    requires |Mix(c, b, frames).mixer.slots| == |Mix(c, b, frames).mixer.generations| == |b.mixer.slots|
    requires frames * c.C() >= 0
    ensures SignalSum(c, Mix(c, b, frames), n, k) == SignalSum(c, b, n, frames * c.C() + k)
  {
    hide Steady, Mix, SlotSignal;
    if n == 0 {
    } else {
      SumShifts(c, b, frames, n - 1, k);
      SlotSignalShifts(c, b, frames, n - 1, k);
    }
  }

  lemma {:induction false} PullKeepsFormats<S>(c: Setup, b: Bus<S>, frames: nat, i: nat)
    requires Stored(b) && AtFormat(c, b) && i <= |b.routes|
    ensures AtFormat(c, Pull(c, b, frames, i))
  {
    hide Pull, Submitted;
    if i == 0 {
      PullStart(c, b, frames);
    } else {
      PullKeepsFormats(c, b, frames, i - 1);
      PullNext(c, b, frames, i - 1);
    }
  }

  lemma MixStaysSteady<S>(c: Setup, b: Bus<S>, frames: nat)
    requires Steady(c, b)
    ensures Steady(c, Mix(c, b, frames))
  {
    var b' := Mix(c, b, frames);
    MixKeepsInv(c, b, frames);
    MixIsSweep(c, b, frames);
    SubsetStaysDistinct(b.routes, b'.routes);
    PullKeepsFormats(c, b, frames, |b.routes|);
    forall i | 0 <= i < |b'.fading| && b'.mixer.Names(b'.fading[i])
      ensures b'.mixer.slots[b'.fading[i].input].value.ramp.Some? ==>
                b'.mixer.slots[b'.fading[i].input].value.ramp.value.end == 0.0
    {
      FadingKeepsEnd(c, b, frames, i);
    }
  }

  lemma SubsetStaysDistinct<S>(routes: seq<(RoutePoint, S)>, routes': seq<(RoutePoint, S)>)
    requires DistinctStores(routes) && DistinctPoints(routes')
    requires forall r :: r in routes' ==> r in routes
    ensures DistinctStores(routes')
  {
    forall i, j | 0 <= i < j < |routes'|
      ensures routes'[i].1 != routes'[j].1
    {
      assert routes'[i] in routes && routes'[j] in routes;
      var k :| 0 <= k < |routes| && routes[k] == routes'[i];
      var l :| 0 <= l < |routes| && routes[l] == routes'[j];
      assert k != l;
    }
  }

  lemma FadingKeepsEnd<S>(c: Setup, b: Bus<S>, frames: nat, i: nat)
    requires BusInv(b) && FadesOut(b) && i < |Mix(c, b, frames).fading|
    requires Mix(c, b, frames).mixer.Names(Mix(c, b, frames).fading[i])
    ensures var b' := Mix(c, b, frames);
            var ramp := b'.mixer.slots[b'.fading[i].input].value.ramp;
            ramp.Some? ==> ramp.value.end == 0.0
  {
    var b', m := Mix(c, b, frames), Advanced(c, b, frames);
    AdvancedStrips(c, b, frames);
    MixIsSweep(c, b, frames);
    var p := b'.fading[i];
    var j :| 0 <= j < |b.fading| && b.fading[j] == p;
    var k :| 0 <= k < |b.routes| && b.routes[k].0 == p;
    assert b.mixer.Names(b.fading[j]);
    assert !Swept(m, b.fading, RoutePoint(p.input, m.generations[p.input]));
  }

  lemma {:induction false} SignalIgnoresTicks<S>(c: Setup, b: Bus<S>, ticks: nat, n: nat, k: nat)
    requires n <= |b.mixer.slots| == |b.mixer.generations|
    ensures SignalSum(c, b.(ticks := ticks), n, k) == SignalSum(c, b, n, k)
  {
    if n == 0 {
    } else {
      SignalIgnoresTicks(c, b, ticks, n - 1, k);
    }
  }

  lemma SteadyShape<S>(c: Setup, b: Bus<S>)
    requires Steady(c, b)
    ensures Stored(b) && |b.mixer.slots| == |b.mixer.generations|
  {}

  lemma SteadyIgnoresTicks<S>(c: Setup, b: Bus<S>, ticks: nat)
    requires Steady(c, b)
    ensures Steady(c, b.(ticks := ticks))
  {}

  lemma TickStaysSteady<S>(c: Setup, b: Bus<S>, target: nat)
    requires Steady(c, b)
    ensures Stored(b) && Steady(c, TickTo(c, b, target))
  {
    hide Steady, Mix;
    SteadyShape(c, b);
    MixStaysSteady(c, b, c.Owed(b.ticks, target));
    SteadyIgnoresTicks(c, Mix(c, b, c.Owed(b.ticks, target)), Max(b.ticks, target));
  }

  /** A tick moves the signal on by the samples it emits. */
  lemma TickShifts<S>(c: Setup, b: Bus<S>, target: nat, k: nat)
    requires Steady(c, b)
    ensures Stored(b) && Steady(c, TickTo(c, b, target))
    ensures |b.mixer.slots| == |b.mixer.generations| && |TickTo(c, b, target).mixer.slots| == |TickTo(c, b, target).mixer.generations|
    ensures Signal(c, TickTo(c, b, target), k) == Signal(c, b, |TickBlock(c, b, target)| + k)
  {
    hide Steady, TickTo, TickBlock, Mix, SignalSum, Setup.Owed;
    SteadyShape(c, b);
    TickStaysSteady(c, b, target);
    SteadyShape(c, TickTo(c, b, target));
    var frames := TickIsMix(c, b, target);
    MixShifts(c, b, frames, k);
    SignalIgnoresTicks(c, Mix(c, b, frames), Max(b.ticks, target), |b.mixer.slots|, k);
  }

  lemma TickIsMix<S>(c: Setup, b: Bus<S>, target: nat) returns (frames: nat)
    requires Stored(b)
    ensures TickTo(c, b, target) == Mix(c, b, frames).(ticks := Max(b.ticks, target))
    ensures |TickBlock(c, b, target)| == frames * c.C()
  {
    hide Mix, Block;
    frames := c.Owed(b.ticks, target);
  }

  lemma MixShifts<S>(c: Setup, b: Bus<S>, frames: nat, k: nat)
    requires Steady(c, b)
    ensures var m := Mix(c, b, frames).mixer;
            && |m.slots| == |m.generations| == |b.mixer.slots|
            && SignalSum(c, Mix(c, b, frames), |m.slots|, k) == SignalSum(c, b, |b.mixer.slots|, frames * c.C() + k)
  {
    MixStaysSteady(c, b, frames);
    SteadyShape(c, Mix(c, b, frames));
    MixKeepsSlotCount(c, b, frames);
    hide Mix, SignalSum;
    SumShifts(c, b, frames, |b.mixer.slots|, k);
  }

  // ---- any cut of the ticks ------------------------------------------------------------

  /** The bus after a run of ticks, and the blocks it emitted, end to end. */
  ghost function AfterTicks<S>(c: Setup, b: Bus<S>, targets: seq<nat>): Bus<S>
    decreases |targets|
  {
    if targets == [] || !Stored(b) then b else AfterTicks(c, TickTo(c, b, targets[0]), targets[1..])
  }

  ghost function Blocks<S>(c: Setup, b: Bus<S>, targets: seq<nat>): seq<real>
    decreases |targets|
  {
    if targets == [] || !Stored(b) then [] else
      TickBlock(c, b, targets[0]) + Blocks(c, TickTo(c, b, targets[0]), targets[1..])
  }

  function Furthest(ticks: nat, targets: seq<nat>): (f: nat)
    ensures f >= ticks
    decreases |targets|
  {
    if targets == [] then ticks else Furthest(Max(ticks, targets[0]), targets[1..])
  }

  /** The first tick of a run, apart from the rest of it. */
  lemma FirstTick<S>(c: Setup, b: Bus<S>, targets: seq<nat>)
    requires Steady(c, b) && targets != []
    ensures Stored(b) && Steady(c, TickTo(c, b, targets[0]))
    ensures Blocks(c, b, targets) == TickBlock(c, b, targets[0]) + Blocks(c, TickTo(c, b, targets[0]), targets[1..])
    ensures AfterTicks(c, b, targets) == AfterTicks(c, TickTo(c, b, targets[0]), targets[1..])
  {
    TickStaysSteady(c, b, targets[0]);
    hide Steady, TickTo, TickBlock;
  }

  lemma NoTicks<S>(c: Setup, b: Bus<S>)
    ensures Blocks(c, b, []) == [] && AfterTicks(c, b, []) == b
  {}

  /** A run of ticks emits the samples owed from its first tick to its furthest. */
  lemma {:induction false} BlocksLength<S>(c: Setup, b: Bus<S>, targets: seq<nat>)
    requires Steady(c, b) && c.Monotone()
    ensures c.total(b.ticks) * c.C() + |Blocks(c, b, targets)| == c.total(Furthest(b.ticks, targets)) * c.C()
    decreases |targets|
  {
    hide Steady, Blocks, AfterTicks;
    if targets == [] {
      NoTicks(c, b);
    } else {
      FirstTick(c, b, targets);
      OwedSamples(c, b.ticks, targets[0]);
      TickCounts(c, b, targets[0]);
      hide TickTo, TickBlock;
      BlocksLength(c, TickTo(c, b, targets[0]), targets[1..]);
    }
  }

  lemma TickCounts<S>(c: Setup, b: Bus<S>, target: nat)
    requires Stored(b)
    ensures TickTo(c, b, target).ticks == Max(b.ticks, target)
    ensures |TickBlock(c, b, target)| == c.Owed(b.ticks, target) * c.C()
  {}

  lemma OwedSamples(c: Setup, ticks: nat, target: nat)
    requires c.Monotone()
    ensures c.total(ticks) * c.C() + c.Owed(ticks, target) * c.C()
         == c.total(Max(ticks, target)) * c.C()
  {
    if target > ticks {
      assert c.total(ticks) <= c.total(target);
      Distribute(c.total(target), c.total(ticks), c.C());
    }
  }

  lemma TickBlockIsSignal<S>(c: Setup, b: Bus<S>, target: nat, k: nat)
    requires Steady(c, b)
    ensures Stored(b) && |b.mixer.slots| == |b.mixer.generations|
    ensures k < |TickBlock(c, b, target)| ==> TickBlock(c, b, target)[k] == Signal(c, b, k)
  {
    SteadyShape(c, b);
    hide Signal, Block;
    if k < |TickBlock(c, b, target)| {
      BlockIsSignal(c, b, c.Owed(b.ticks, target), k);
    }
  }

  /** The blocks of any run of ticks, end to end, are the signal the bus stands at ... */
  lemma {:induction false} BlocksAreSignal<S>(c: Setup, b: Bus<S>, targets: seq<nat>, k: nat)
    requires Steady(c, b)
    ensures |b.mixer.slots| == |b.mixer.generations|
    ensures k < |Blocks(c, b, targets)| ==> Blocks(c, b, targets)[k] == Signal(c, b, k)
    decreases |targets|
  {
    hide Steady, Signal, TickTo, TickBlock, Blocks, AfterTicks;
    SteadyShape(c, b);
    if targets == [] {
      NoTicks(c, b);
    } else {
      FirstTick(c, b, targets);
      var first := |TickBlock(c, b, targets[0])|;
      TickBlockIsSignal(c, b, targets[0], k);
      if first <= k < |Blocks(c, b, targets)| {
        TickShifts(c, b, targets[0], k - first);
        BlocksAreSignal(c, TickTo(c, b, targets[0]), targets[1..], k - first);
      }
    }
  }

  /** ... and leave the bus exactly that far into it: its sample `k` is then the sample
      `at` of the signal it began with. */
  lemma {:induction false} SignalAfterTicks<S>(c: Setup, b: Bus<S>, targets: seq<nat>, k: nat, at: nat)
    requires Steady(c, b) && at == |Blocks(c, b, targets)| + k
    ensures Steady(c, AfterTicks(c, b, targets))
    ensures |b.mixer.slots| == |b.mixer.generations|
    ensures var e := AfterTicks(c, b, targets);
            |e.mixer.slots| == |e.mixer.generations| && Signal(c, e, k) == Signal(c, b, at)
    decreases |targets|
  {
    hide Steady, Signal, TickTo, TickBlock, Blocks, AfterTicks;
    SteadyShape(c, b);
    if targets == [] {
      NoTicks(c, b);
    } else {
      FirstTick(c, b, targets);
      var rest := at - |TickBlock(c, b, targets[0])|;
      TickShifts(c, b, targets[0], rest);
      SignalAfterTicks(c, TickTo(c, b, targets[0]), targets[1..], k, rest);
    }
  }

  /** Tick-partition invariance.  With no two routes sharing a store and nothing published
      or re-routed in between, any run of ticks ending at `target`, in any cut, with stale
      targets among them, even when cross-fades finish and are retired part-way, emits
      end to end the very block a single catch-up tick to `target` emits. */
  lemma TickPartitionIsIrrelevant<S>(c: Setup, b: Bus<S>, targets: seq<nat>, target: nat)
    requires Steady(c, b) && c.Monotone()
    requires forall i | 0 <= i < |targets| :: targets[i] <= target
    ensures Stored(b) && Blocks(c, b, targets + [target]) == TickBlock(c, b, target)
  {
    hide Steady, Signal, TickTo, TickBlock, Blocks, AfterTicks, Furthest;
    SteadyShape(c, b);
    var all := targets + [target];
    FurthestIsLast(b.ticks, targets, target);
    BlocksLength(c, b, all);
    OwedSamples(c, b.ticks, target);
    TickCounts(c, b, target);
    var cut, whole := Blocks(c, b, all), TickBlock(c, b, target);
    forall k | 0 <= k < |whole|
      ensures cut[k] == whole[k]
    {
      BlocksAreSignal(c, b, all, k);
      TickBlockIsSignal(c, b, target, k);
    }
    assert cut == whole;
  }

  /** Whatever is played after the catch-up does not depend on the cut either. */
  lemma TickPartitionLeavesSameSignal<S>(c: Setup, b: Bus<S>, targets: seq<nat>, target: nat, k: nat)
    requires Steady(c, b) && c.Monotone()
    requires forall i | 0 <= i < |targets| :: targets[i] <= target
    ensures Stored(b) && Steady(c, AfterTicks(c, b, targets + [target])) && Steady(c, TickTo(c, b, target))
    ensures var cut, whole := AfterTicks(c, b, targets + [target]), TickTo(c, b, target);
            && |cut.mixer.slots| == |cut.mixer.generations| && |whole.mixer.slots| == |whole.mixer.generations|
            && Signal(c, cut, k) == Signal(c, whole, k)
  {
    hide Steady, Signal, TickTo, TickBlock, Blocks, AfterTicks;
    TickPartitionIsIrrelevant(c, b, targets, target);
    SignalAfterTicks(c, b, targets + [target], k, |TickBlock(c, b, target)| + k);
    TickShifts(c, b, target, k);
  }

  lemma {:induction false} FurthestIsLast(ticks: nat, targets: seq<nat>, target: nat)
    requires forall i | 0 <= i < |targets| :: targets[i] <= target
    ensures Furthest(ticks, targets + [target]) == Max(ticks, target)
    decreases |targets|
  {
    if targets == [] {
    } else {
      assert (targets + [target])[1..] == targets[1..] + [target];
      FurthestIsLast(Max(ticks, targets[0]), targets[1..], target);
    }
  }
}
