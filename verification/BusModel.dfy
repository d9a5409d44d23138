/** The program bus as a value: what one tick pulls, mixes, advances and retires, with
    the routed stores named by identity (two routes may name the same store, and then
    share its one read cursor). */
module BusModel {
  import opened Audio
  import opened Store
  import opened Mixer

  /** A store as the bus sees it: its window, its read cursor and its format. */
  datatype Feed = Feed(window: RingSnapshot, cursor: int, format: AudioFormat)

  /** What a bus is built with; `total` is its clock's cumulative frame total by tick. */
  datatype Setup = Setup(format: AudioFormat, trig: Trig, total: nat -> nat) {
    ghost predicate Monotone() {
      total(0) == 0 && forall a: nat, b: nat | a <= b :: total(a) <= total(b)
    }

    /** The frames a clock standing at `ticks` owes on being advanced to `target`. */
    function Owed(ticks: nat, target: nat): nat {
      if target <= ticks || total(target) <= total(ticks) then 0 else total(target) - total(ticks)
    }

    function C(): (c: nat)
      ensures c >= 1
    {
      format.Channels()
    }
  }

  datatype Bus<!S(==)> = Bus(mixer: Slots, ticks: nat, routes: seq<(RoutePoint, S)>, fading: seq<RoutePoint>,
                             stores: map<S, Feed>)

  /** The store a route point reads: the first route carrying the point. */
  function StoreOf<S>(routes: seq<(RoutePoint, S)>, p: RoutePoint): Option<S> {
    if routes == [] then None else if routes[0].0 == p then Some(routes[0].1) else StoreOf(routes[1..], p)
  }

  /** Re-binds the first route carrying `p`. */
  function Rebind<S>(routes: seq<(RoutePoint, S)>, p: RoutePoint, s: S): (r: seq<(RoutePoint, S)>)
    ensures |r| == |routes|
  {
    if routes == [] then [] else if routes[0].0 == p then [(p, s)] + routes[1..]
    else [routes[0]] + Rebind(routes[1..], p, s)
  }

  function Without<S>(routes: seq<(RoutePoint, S)>, p: RoutePoint): seq<(RoutePoint, S)> {
    if routes == [] then [] else
      (if routes[0].0 == p then [] else [routes[0]]) + Without(routes[1..], p)
  }

  /** Only the routed stores stay referenced. */
  ghost function Referenced<S>(stores: map<S, Feed>, routes: seq<(RoutePoint, S)>): map<S, Feed> {
    map s | s in stores && (exists i :: 0 <= i < |routes| && routes[i].1 == s) :: stores[s]
  }

  ghost predicate Stored<S>(b: Bus<S>) {
    forall i | 0 <= i < |b.routes| :: b.routes[i].1 in b.stores
  }

  // ---- control operations --------------------------------------------------------

  ghost function AddSource<S>(b: Bus<S>, id: string, s: S, feed: Feed, gain: real): (Bus<S>, RoutePoint) {
    var (m, p) := b.mixer.AddInput(id);
    (b.(mixer := m.RouteToProgram(p, gain), routes := b.routes + [(p, s)], stores := b.stores[s := feed]), p)
  }

  /** The feed parked at its writer's head, as a re-point leaves it. */
  function LiveEdge(feed: Feed): Feed {
    feed.(cursor := feed.window.HeadFrame(feed.format.Channels()))
  }

  /** The hard switch: `p` reads `s` from its live edge on; an unknown point is refused. */
  ghost function Repoint<S>(c: Setup, b: Bus<S>, p: RoutePoint, s: S, feed: Feed): Bus<S> {
    if StoreOf(b.routes, p).None? then b else
      var routes := Rebind(b.routes, p, s);
      b.(routes := routes, stores := Referenced(b.stores[s := LiveEdge(feed)], routes))
  }

  /** The two strips of a cross-fade: a fresh outgoing one at `gain` on a falling taper, and
      `p` on a rising one. */
  function FadePair(m: Slots, p: RoutePoint, id: string, gain: real, ramp: nat): (Slots, RoutePoint) {
    var (m', out) := m.AddInput(id);
    (m'.RouteToProgram(out, gain).SetGainRamp(out, GainRamp.Down(ramp)).SetGainRamp(p, GainRamp.Up(ramp)), out)
  }

  /** The cross-fade: the old store moves to a fresh outgoing strip that fades out while
      `p` fades in on `s`.  A zero-length ramp is the hard switch. */
  ghost function RepointCrossfade<S>(c: Setup, b: Bus<S>, p: RoutePoint, s: S, feed: Feed, ramp: nat): Bus<S> {
    if ramp == 0 then Repoint(c, b, p, s, feed) else
    match StoreOf(b.routes, p)
    case None => b
    case Some(before) =>
      var strip := b.mixer.Find(p);
      var gain := if strip.Some? then strip.value.gain else 1.0;
      var id := if strip.Some? then strip.value.id else "xfade-out";
      var (m, out) := FadePair(b.mixer, p, id, gain, ramp);
      var routes := Rebind(b.routes + [(out, before)], p, s);
      b.(mixer := m, routes := routes, fading := b.fading + [out],
         stores := Referenced(b.stores[s := LiveEdge(feed)], routes))
  }

  // ---- one tick ------------------------------------------------------------------

  /** Every store is at the bus format, as `add_source` asks of its callers. */
  ghost predicate AtFormat<S>(c: Setup, b: Bus<S>) {
    forall s | s in b.stores :: b.stores[s].format == c.format
  }

  /** One store's next frames handed to a strip; the mixer refuses them at another format. */
  function Submitted(c: Setup, m: Slots, p: RoutePoint, feed: Feed, frames: nat): Slots {
    if feed.format == c.format then m.Submit(p, feed.window.Slice(c.C(), feed.cursor, frames)) else m
  }

  /** The first `i` routes pulled and submitted, in order, each through its store's cursor. */
  ghost function Pull<S>(c: Setup, b: Bus<S>, frames: nat, i: nat): (r: Bus<S>)
    requires Stored(b) && i <= |b.routes|
    ensures r.routes == b.routes && r.stores.Keys == b.stores.Keys && r.fading == b.fading && r.ticks == b.ticks
  {
    if i == 0 then b else
      var before := Pull(c, b, frames, i - 1);
      var (p, s) := b.routes[i - 1];
      var feed := before.stores[s];
      before.(stores := before.stores[s := feed.(cursor := feed.cursor + frames)],
              mixer := Submitted(c, before.mixer, p, feed, frames))
  }

  lemma PullStart<S>(c: Setup, b: Bus<S>, frames: nat)
    requires Stored(b)
    ensures Pull(c, b, frames, 0) == b
  {}

  lemma PullNext<S>(c: Setup, b: Bus<S>, frames: nat, i: nat)
    requires Stored(b) && i < |b.routes|
    ensures var before, r, p, s := Pull(c, b, frames, i), Pull(c, b, frames, i + 1), b.routes[i].0, b.routes[i].1;
            var feed := before.stores[s];
            && r.stores == before.stores[s := feed.(cursor := feed.cursor + frames)]
            && r.mixer == Submitted(c, before.mixer, p, feed, frames)
  {}

  /** The bus sum of the submitted blocks, `frames` frames long; silence when nothing of
      that length was submitted. */
  function MixedBlock(c: Setup, m: Slots, frames: nat): (r: seq<real>)
    ensures |r| == frames * c.C()
  {
    if m.MixFrames(c.C(), |m.slots|) == frames
    then seq(frames * c.C(), k requires 0 <= k => ClampUnit(m.BusSum(c.trig, c.C(), |m.slots|, k)))
    else Zeros(frames * c.C())
  }

  /** The block one mix of `frames` frames returns: never short, never absent. */
  ghost function Block<S>(c: Setup, b: Bus<S>, frames: nat): (r: seq<real>)
    requires Stored(b)
    ensures |r| == frames * c.C()
  {
    MixedBlock(c, Pull(c, b, frames, |b.routes|).mixer, frames)
  }

  /** Whether an outgoing strip has no ramp left. */
  predicate FadeDone(m: Slots, p: RoutePoint) {
    m.Find(p) == None || m.Find(p).value.ramp == None
  }

  /** Removes every finished outgoing strip and its route: the swept mixer and routes, and
      the points still fading. */
  function Sweep<S>(m: Slots, routes: seq<(RoutePoint, S)>, todo: seq<RoutePoint>)
    : (Slots, seq<(RoutePoint, S)>, seq<RoutePoint>)
    decreases |todo|
  {
    if todo == [] then (m, routes, [])
    else if FadeDone(m, todo[0]) then Sweep(m.RemoveInput(todo[0]), Without(routes, todo[0]), todo[1..])
    else
      var (m', routes', kept) := Sweep(m, routes, todo[1..]);
      (m', routes', [todo[0]] + kept)
  }

  lemma SweepNothing<S>(m: Slots, routes: seq<(RoutePoint, S)>)
    ensures Sweep(m, routes, []) == (m, routes, [])
  {}

  lemma SweepNext<S>(m: Slots, routes: seq<(RoutePoint, S)>, todo: seq<RoutePoint>)
    requires todo != []
    ensures FadeDone(m, todo[0]) ==>
              Sweep(m, routes, todo) == Sweep(m.RemoveInput(todo[0]), Without(routes, todo[0]), todo[1..])
    ensures !FadeDone(m, todo[0]) ==>
              var rest := Sweep(m, routes, todo[1..]);
              Sweep(m, routes, todo) == (rest.0, rest.1, [todo[0]] + rest.2)
  {
    hide FadeDone, Without;
  }

  /** The mixer a mix sweeps: every strip fed, and its ramp advanced. */
  ghost function Advanced<S>(c: Setup, b: Bus<S>, frames: nat): Slots
    requires Stored(b)
  {
    Pull(c, b, frames, |b.routes|).mixer.AdvanceRamps(c.trig, frames)
  }

  ghost function Mix<S>(c: Setup, b: Bus<S>, frames: nat): Bus<S>
    requires Stored(b)
  {
    var pulled := Pull(c, b, frames, |b.routes|);
    var (m, routes, fading) := Sweep(Advanced(c, b, frames), b.routes, b.fading);
    pulled.(mixer := m, routes := routes, fading := fading, stores := Referenced(pulled.stores, routes))
  }

  /** `tick_to`: the frames owed up to `target`, mixed. */
  ghost function TickTo<S>(c: Setup, b: Bus<S>, target: nat): Bus<S>
    requires Stored(b)
  {
    Mix(c, b, c.Owed(b.ticks, target)).(ticks := Max(b.ticks, target))
  }

  ghost function TickBlock<S>(c: Setup, b: Bus<S>, target: nat): seq<real>
    requires Stored(b)
  {
    Block(c, b, c.Owed(b.ticks, target))
  }

  // ---- what the clock does not touch ------------------------------------------------

  lemma {:induction false} PullIgnoresTicks<S>(c: Setup, b: Bus<S>, ticks: nat, frames: nat, i: nat)
    requires Stored(b) && i <= |b.routes|
    ensures Pull(c, b.(ticks := ticks), frames, i) == Pull(c, b, frames, i).(ticks := ticks)
  {
    hide Pull;
    if i == 0 {
      PullStart(c, b, frames);
      PullStart(c, b.(ticks := ticks), frames);
    } else {
      PullIgnoresTicks(c, b, ticks, frames, i - 1);
      PullNext(c, b, frames, i - 1);
      PullNext(c, b.(ticks := ticks), frames, i - 1);
    }
  }

  lemma MixIgnoresTicks<S>(c: Setup, b: Bus<S>, ticks: nat, frames: nat)
    requires Stored(b)
    ensures Block(c, b.(ticks := ticks), frames) == Block(c, b, frames)
    ensures Mix(c, b.(ticks := ticks), frames) == Mix(c, b, frames).(ticks := ticks)
  {
    PullIgnoresTicks(c, b, ticks, frames, |b.routes|);
  }
}
