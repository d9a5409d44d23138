/** When ticks may be cut freely: the hypothesis of tick-partition invariance holds from a new
    bus on, through every control operation that routes a store not routed already. */
module BusSteady {
  import opened Mixer
  import opened BusModel
  import opened BusInvariant
  import opened BusRuns
  import opened BusSignal

  ghost predicate Unrouted<S>(routes: seq<(RoutePoint, S)>, s: S) {
    forall i | 0 <= i < |routes| :: routes[i].1 != s
  }

  lemma AddSourceKeepsSteady<S>(c: Setup, b: Bus<S>, id: string, s: S, feed: Feed, gain: real)
    requires Steady(c, b) && feed.format == c.format && Unrouted(b.routes, s)
    ensures Steady(c, AddSource(b, id, s, feed, gain).0)
  {
    AddSourceKeepsInv(b, id, s, feed, gain);
    AddKeepsNames(b.mixer, id);
    MatchedNames(b.mixer, b.routes, b.fading);
  }

  lemma ReboundStaysDistinct<S>(routes: seq<(RoutePoint, S)>, p: RoutePoint, s: S)
    requires DistinctPoints(routes) && Unrouted(routes, s)
    requires forall i, j | 0 <= i < j < |routes| && routes[i].0 != p && routes[j].0 != p :: routes[i].1 != routes[j].1
    ensures DistinctStores(Rebind(routes, p, s))
  {
    var r := Rebind(routes, p, s);
    forall i, j | 0 <= i < j < |r|
      ensures r[i].1 != r[j].1
    {
      ReboundAt(routes, p, s, i);
      ReboundAt(routes, p, s, j);
    }
  }

  lemma RepointKeepsSteady<S>(c: Setup, b: Bus<S>, p: RoutePoint, s: S, feed: Feed)
    requires Steady(c, b) && feed.format == c.format && Unrouted(b.routes, s)
    ensures Steady(c, Repoint(c, b, p, s, feed))
  {
    RepointKeepsInv(c, b, p, s, feed);
    ReboundStaysDistinct(b.routes, p, s);
  }

  /** A cross-fade keeps it, whatever other fades are in flight: the new outgoing strip falls to
      silence, and the channel itself is not on its way out. */
  lemma CrossfadeKeepsSteady<S>(c: Setup, b: Bus<S>, p: RoutePoint, s: S, feed: Feed, ramp: nat)
    requires Steady(c, b) && feed.format == c.format && Unrouted(b.routes, s) && p !in b.fading
    ensures Steady(c, RepointCrossfade(c, b, p, s, feed, ramp))
  {
    if ramp == 0 {
      RepointKeepsSteady(c, b, p, s, feed);
    } else if StoreOf(b.routes, p).Some? {
      CrossfadeKeepsInv(c, b, p, s, feed, ramp);
      CrossfadeKeepsDistinct(c, b, p, s, feed, ramp);
      CrossfadeFadesOut(c, b, p, s, feed, ramp);
    }
  }

  lemma CrossfadeKeepsDistinct<S>(c: Setup, b: Bus<S>, p: RoutePoint, s: S, feed: Feed, ramp: nat)
    requires Steady(c, b) && feed.format == c.format && Unrouted(b.routes, s) && ramp > 0 && StoreOf(b.routes, p).Some?
    ensures DistinctStores(RepointCrossfade(c, b, p, s, feed, ramp).routes)
  {
    CrossfadeRoutes(c, b, p, s, feed, ramp);
    var strip, before := b.mixer.Find(p).value, StoreOf(b.routes, p).value;
    var out := FadePair(b.mixer, p, strip.id, strip.gain, ramp).1;
    AddKeepsNames(b.mixer, strip.id);
    StoreOfIsCarries(b.routes, p);
    hide Rebind, FadePair, RepointCrossfade;
    OutgoingStaysDistinct(b.routes, p, out, before);
    ReboundStaysDistinct(b.routes + [(out, before)], p, s);
  }

  /** A second route to `p`'s store leaves every store once among the other routes. */
  lemma OutgoingStaysDistinct<S>(routes: seq<(RoutePoint, S)>, p: RoutePoint, out: RoutePoint, before: S)
    requires DistinctPoints(routes) && DistinctStores(routes) && (p, before) in routes
    ensures var r := routes + [(out, before)];
            forall i, j | 0 <= i < j < |r| && r[i].0 != p && r[j].0 != p :: r[i].1 != r[j].1
  {
    var k :| 0 <= k < |routes| && routes[k] == (p, before);
  }

  lemma CrossfadeFadesOut<S>(c: Setup, b: Bus<S>, p: RoutePoint, s: S, feed: Feed, ramp: nat)
    requires BusInv(b) && FadesOut(b) && p !in b.fading && ramp > 0 && StoreOf(b.routes, p).Some?
    ensures FadesOut(RepointCrossfade(c, b, p, s, feed, ramp))
  {
    CrossfadeRoutes(c, b, p, s, feed, ramp);
    MatchedNames(b.mixer, b.routes, b.fading);
    var strip := b.mixer.Find(p).value;
    FadePairStrips(b.mixer, p, strip.id, strip.gain, ramp);
    AddKeepsNames(b.mixer, strip.id);
  }

  lemma TickKeepsSteady<S>(c: Setup, b: Bus<S>, target: nat)
    requires Steady(c, b)
    ensures Steady(c, TickTo(c, b, target))
  {
    MixStaysSteady(c, b, c.Owed(b.ticks, target));
  }

  /** An event that routes no store already routed or at another format, and fades no strip already on its way out. */
  ghost predicate Fresh<S>(c: Setup, b: Bus<S>, e: Event<S>) {
    match e
    case AddSourceOp(_, s, feed, _) => Unrouted(b.routes, s) && feed.format == c.format
    case RepointOp(_, s, feed) => Unrouted(b.routes, s) && feed.format == c.format
    case CrossfadeOp(p, s, feed, _) => Unrouted(b.routes, s) && feed.format == c.format && p !in b.fading
    case _ => true
  }

  lemma EventKeepsSteady<S>(c: Setup, b: Bus<S>, e: Event<S>)
    requires Steady(c, b) && Fresh(c, b, e)
    ensures Steady(c, After(c, b, e))
  {
    SteadyIsStored(c, b);
    hide Steady, Stored, AtFormat, Fresh, After;
    match e
    case AddSourceOp(id, s, feed, gain) => AddEventKeepsSteady(c, b, id, s, feed, gain);
    case RepointOp(p, s, feed) => RepointEventKeepsSteady(c, b, p, s, feed);
    case CrossfadeOp(p, s, feed, ramp) => CrossfadeEventKeepsSteady(c, b, p, s, feed, ramp);
    case TickToOp(target) => TickEventKeepsSteady(c, b, e);
    case TickOp => TickEventKeepsSteady(c, b, e);
    case PublishOp(s, window) => PublishKeepsSteady(c, b, s, window);
  }

  lemma AddEventKeepsSteady<S>(c: Setup, b: Bus<S>, id: string, s: S, feed: Feed, gain: real)
    requires Steady(c, b) && Fresh(c, b, AddSourceOp(id, s, feed, gain))
    ensures Steady(c, After(c, b, AddSourceOp(id, s, feed, gain)))
  {
    SteadyIsStored(c, b);
    FeedIsAtFormat(c, b, s, feed);
    hide Steady, Stored, AtFormat, FeedOf, AddSource;
    AddSourceKeepsSteady(c, b, id, s, FeedOf(b, s, feed), gain);
  }

  lemma RepointEventKeepsSteady<S>(c: Setup, b: Bus<S>, p: RoutePoint, s: S, feed: Feed)
    requires Steady(c, b) && Fresh(c, b, RepointOp(p, s, feed))
    ensures Steady(c, After(c, b, RepointOp(p, s, feed)))
  {
    SteadyIsStored(c, b);
    FeedIsAtFormat(c, b, s, feed);
    hide Steady, Stored, AtFormat, FeedOf, Repoint;
    RepointKeepsSteady(c, b, p, s, FeedOf(b, s, feed));
  }

  lemma CrossfadeEventKeepsSteady<S>(c: Setup, b: Bus<S>, p: RoutePoint, s: S, feed: Feed, ramp: nat)
    requires Steady(c, b) && Fresh(c, b, CrossfadeOp(p, s, feed, ramp))
    ensures Steady(c, After(c, b, CrossfadeOp(p, s, feed, ramp)))
  {
    SteadyIsStored(c, b);
    FeedIsAtFormat(c, b, s, feed);
    hide Steady, Stored, AtFormat, FeedOf, RepointCrossfade;
    CrossfadeKeepsSteady(c, b, p, s, FeedOf(b, s, feed), ramp);
  }

  lemma TickEventKeepsSteady<S>(c: Setup, b: Bus<S>, e: Event<S>)
    requires Steady(c, b) && (e.TickToOp? || e.TickOp?)
    ensures Steady(c, After(c, b, e))
  {
    SteadyIsStored(c, b);
    hide Steady, Stored, AtFormat, TickTo;
    TickKeepsSteady(c, b, Target(b, e));
  }

  lemma FeedIsAtFormat<S>(c: Setup, b: Bus<S>, s: S, feed: Feed)
    requires AtFormat(c, b) && feed.format == c.format
    ensures FeedOf(b, s, feed).format == c.format
  {}

  lemma PublishKeepsSteady<S>(c: Setup, b: Bus<S>, s: S, window: Store.RingSnapshot)
    requires Steady(c, b)
    ensures Steady(c, After(c, b, PublishOp(s, window)))
  {}

  ghost predicate Reaches<S>(c: Setup, b: Bus<S>, events: seq<Event<S>>, t: Bus<S>)
    decreases |events|
  {
    if events == [] then b == t else
      Steady(c, b) && Fresh(c, b, events[0]) && Reaches(c, After(c, b, events[0]), events[1..], t)
  }

  /** From any steady bus, a new one among them, every run of such events ends on one: with fades
      in flight, finished or overlapping, the next ticks may be cut anywhere. */
  lemma {:induction false} RunsStaySteady<S>(c: Setup, b: Bus<S>, events: seq<Event<S>>, t: Bus<S>)
    requires Steady(c, b) && Reaches(c, b, events, t)
    ensures Steady(c, t)
    decreases |events|
  {
    if events == [] {
    } else {
      hide Steady, Fresh, After, BusInv;
      SteadyIsStored(c, b);
      EventKeepsSteady(c, b, events[0]);
      RunsStaySteady(c, After(c, b, events[0]), events[1..], t);
    }
  }

  lemma SteadyIsStored<S>(c: Setup, b: Bus<S>)
    requires Steady(c, b)
    ensures Stored(b) && AtFormat(c, b)
  {}

  lemma FreshBusIsSteady<S>(c: Setup)
    ensures Steady<S>(c, FreshRun().bus)
  {}
}
