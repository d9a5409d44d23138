/** The program bus on the output clock: the imperative bus, proved to run the value-level
    model of `BusModel` step for step. */
module ProgramBus {
  import opened Audio
  import opened Store
  import opened Mixer
  import opened BusModel
  import opened BusInvariant
  import Cadence

  datatype SwitchTier = SoftStep | ClickFree

  datatype SwitchResult = Switched(tier: SwitchTier) | UnknownChannel(index: nat)

  class ProgramBus {
    const format: AudioFormat
    const mixer: Mixer
    const clock: Cadence.SampleClock
    var routes: seq<(RoutePoint, AudioStore)>
    var fadingOut: seq<RoutePoint>

    ghost function Stores(): set<AudioStore>
      reads this
    {
      set i | 0 <= i < |routes| :: routes[i].1
    }

    ghost predicate Valid()
      reads this, mixer, Stores()
    {
      && mixer.format == format
      && (forall s | s in Stores() :: s.Valid())
      && WholeBlocks(format, mixer.View())
    }

    ghost function Settings(): Setup
      reads this
    {
      Setup(format, mixer.trig, (t: nat) => clock.rate.TotalAt(t))
    }

    ghost function Feeds(): map<AudioStore, Feed>
      reads this, Stores()
    {
      map s | s in Stores() :: FeedOf(s)
    }

    ghost function View(): Bus<AudioStore>
      reads this, mixer, clock, Stores()
    {
      Bus(mixer.View(), clock.ticks, routes, fadingOut, Feeds())
    }

    constructor (format: AudioFormat, trig: Trig, fpsNum: int, fpsDen: int)
      ensures Valid() && this.format == format && mixer.trig == trig
      ensures View() == Bus(Slots([], [], []), 0, [], [], map[])
      ensures fresh(mixer) && fresh(clock)
    {
      this.format := format;
      mixer := new Mixer(format, trig);
      clock := new Cadence.SampleClock(format.sampleRate, fpsNum, fpsDen);
      routes, fadingOut := [], [];
    }

    method AddSource(id: string, store: AudioStore, gain: real) returns (point: RoutePoint)
      requires Valid() && store.Valid()
      modifies this, mixer
      ensures Valid()
      ensures (View(), point) == BusModel.AddSource(old(View()), id, store, old(FeedOf(store)), gain)
    {
      AddKeepsWhole(format, mixer.View(), id, gain);
      point := mixer.AddInput(id);
      mixer.RouteToProgram(point, gain);
      routes := routes + [(point, store)];
      assert Stores() == old(Stores()) + {store} by {
        assert routes[|routes| - 1].1 == store;
        assert forall i | 0 <= i < |old(routes)| :: routes[i] == old(routes)[i];
      }
      assert Feeds() == old(View()).stores[store := old(FeedOf(store))];
    }

    /** Binds `point` to `store`, parked at its live edge. */
    method BindAtLiveEdge(point: RoutePoint, store: AudioStore)
      requires Valid() && store.Valid() && StoreOf(routes, point).Some?
      modifies this`routes, store`readFrame
      ensures Valid()
      ensures routes == Rebind(old(routes), point, store)
      ensures View() == old(View()).(routes := routes,
                          stores := Referenced(old(View()).stores[store := LiveEdge(old(FeedOf(store)))], routes))
    {
      hide StoreOf, Rebind, Referenced, WholeBlocks, RingSnapshot.HeadFrame;
      store.SeekToLiveEdge();
      routes := Rebind(routes, point, store);
      assert store in Stores() && forall s | s in Stores() :: s == store || s in old(Stores()) by {
        RebindKeepsPoints(old(routes), point, store);
        ghost var i := ReboundIndex(old(routes), point, store);
      }
      ghost var feeds := old(View()).stores[store := LiveEdge(old(FeedOf(store)))];
      assert forall s | s in Stores() :: s in feeds && feeds[s] == FeedOf(s);
      ReferencedAre(feeds, routes, Feeds());
    }

    /** The hard switch of an existing route point; the new store starts at its live edge. */
    method Repoint(point: RoutePoint, store: AudioStore) returns (r: Outcome)
      requires Valid() && store.Valid()
      modifies this`routes, store`readFrame
      ensures Valid()
      ensures r == if StoreOf(old(routes), point).None? then UnknownInput(point.input) else Done
      ensures View() == BusModel.Repoint(Settings(), old(View()), point, store, old(FeedOf(store)))
    {
      if StoreOf(routes, point).None? {
        return UnknownInput(point.input);
      }
      BindAtLiveEdge(point, store);
      return Done;
    }

    /** The outgoing strip of a cross-fade: a fresh route reading `store`, fading out. */
    method AddOutgoing(id: string, gain: real, store: AudioStore, ramp: nat) returns (out: RoutePoint)
      requires Valid() && store in Stores()
      modifies this`routes, this`fadingOut, mixer
      ensures Valid()
      ensures routes == old(routes) + [(out, store)] && fadingOut == old(fadingOut) + [out]
      ensures var (m, p) := old(mixer.View()).AddInput(id);
              out == p && mixer.View() == m.RouteToProgram(p, gain).SetGainRamp(p, GainRamp.Down(ramp))
      ensures View() == old(View()).(mixer := mixer.View(), routes := routes, fading := fadingOut)
    {
      hide WholeBlocks;
      AddKeepsWhole(format, mixer.View(), id, gain);
      out := mixer.AddInput(id);
      mixer.RouteToProgram(out, gain);
      SetRampKeepsWhole(format, mixer.View(), out, GainRamp.Down(ramp));
      mixer.SetGainRamp(out, GainRamp.Down(ramp));
      routes := routes + [(out, store)];
      fadingOut := fadingOut + [out];
      assert Stores() == old(Stores()) by {
        assert forall i | 0 <= i < |old(routes)| :: routes[i] == old(routes)[i];
        assert forall i | 0 <= i < |routes| :: routes[i].1 in old(Stores());
      }
    }

    /** Moves `point` onto `store` with an equal-power cross-fade of `ramp` frames: the old
        store keeps playing on a temporary strip that fades out. */
    method RepointCrossfade(point: RoutePoint, store: AudioStore, ramp: nat) returns (r: SwitchResult)
      requires Valid() && store.Valid()
      modifies this, mixer, store`readFrame
      ensures Valid()
      ensures r == if StoreOf(old(routes), point).None? then UnknownChannel(point.input)
                   else Switched(if ramp == 0 then SoftStep else ClickFree)
      ensures View() == BusModel.RepointCrossfade(Settings(), old(View()), point, store, old(FeedOf(store)), ramp)
    {
      hide StoreOf, Rebind, Referenced, WholeBlocks, Slots.AddInput, Slots.RouteToProgram, Slots.SetGainRamp;
      if ramp == 0 {
        var swapped := Repoint(point, store);
        return if swapped == Done then Switched(SoftStep) else UnknownChannel(point.input);
      }
      var found := StoreOf(routes, point);
      if found.None? {
        return UnknownChannel(point.input);
      }
      var strip := mixer.View().Find(point);
      var baseGain := if strip.Some? then strip.value.gain else 1.0;
      var outId := if strip.Some? then strip.value.id else "xfade-out";
      ghost var i := StoreOfIndex(routes, point);
      var out := AddOutgoing(outId, baseGain, found.value, ramp);
      StoreOfPrefix(old(routes), point, (out, found.value));
      BindAtLiveEdge(point, store);
      ghost var bound := View();
      SetRampKeepsWhole(format, mixer.View(), point, GainRamp.Up(ramp));
      mixer.SetGainRamp(point, GainRamp.Up(ramp));
      assert View() == bound.(mixer := mixer.View());
      assert (mixer.View(), out) == FadePair(old(mixer.View()), point, outId, baseGain, ramp);
      return Switched(ClickFree);
    }

    /** Pulls one route's store into its strip. */
    method PullRoute(point: RoutePoint, store: AudioStore, frames: nat)
      requires Valid() && store in Stores()
      modifies mixer`slots, store`readFrame
      ensures Valid()
      ensures var feed := old(FeedOf(store));
              && Feeds() == old(Feeds())[store := feed.(cursor := feed.cursor + frames)]
              && mixer.View() == Submitted(Settings(), old(mixer.View()), point, feed, frames)
    {
      var block := store.Read(frames);
      var submitted := mixer.Submit(point, block);
    }

    /** Pulls the route after the first `i` of bus `b`. */
    method PullNth(frames: nat, i: nat, store: AudioStore, ghost b: Bus<AudioStore>)
      requires Valid() && Stored(b) && b.routes == routes && i < |routes| && routes[i].1 == store
      requires mixer.View() == Pull(Settings(), b, frames, i).mixer && Feeds() == Pull(Settings(), b, frames, i).stores
      modifies mixer`slots, store`readFrame
      ensures Valid()
      ensures mixer.View() == Pull(Settings(), b, frames, i + 1).mixer
      ensures Feeds() == Pull(Settings(), b, frames, i + 1).stores
    {
      hide Pull, WholeBlocks;
      assert store in Stores();
      PullNext(Settings(), b, frames, i);
      assert Feeds()[store] == FeedOf(store);
      PullRoute(routes[i].0, store, frames);
    }

    /** Pulls `frames` frames from every routed store, in route order, into its strip. */
    method PullAll(frames: nat)
      requires Valid()
      modifies mixer`slots, Stores()`readFrame
      ensures Valid()
      ensures View() == Pull(Settings(), old(View()), frames, |routes|)
    {
      hide Pull, WholeBlocks;
      ghost var b := View();
      PullStart(Settings(), b, frames);
      for i := 0 to |routes|
        invariant Valid()
        invariant mixer.View() == Pull(Settings(), b, frames, i).mixer
        invariant Feeds() == Pull(Settings(), b, frames, i).stores
      {
        assert routes[i].1 in Stores();
        PullNth(frames, i, routes[i].1, b);
      }
    }

    /** Reclaims every outgoing strip whose ramp has run out, and drops its route. */
    method RetireCompletedFades()
      requires mixer.format == format
      modifies this`routes, this`fadingOut, mixer
      ensures (mixer.View(), routes, fadingOut) == Sweep(old(mixer.View()), old(routes), old(fadingOut))
      ensures WholeBlocks(format, old(mixer.View())) ==> WholeBlocks(format, mixer.View())
      ensures forall i | 0 <= i < |routes| :: routes[i] in old(routes)
    {
      hide Sweep, Without, WholeBlocks;
      var todo := fadingOut;
      var kept: seq<RoutePoint> := [];
      assert todo[0..] == todo;
      for i := 0 to |todo|
        invariant kept + Sweep(mixer.View(), routes, todo[i..]).2 == Sweep(old(mixer.View()), old(routes), todo).2
        invariant Sweep(mixer.View(), routes, todo[i..]).0 == Sweep(old(mixer.View()), old(routes), todo).0
        invariant Sweep(mixer.View(), routes, todo[i..]).1 == Sweep(old(mixer.View()), old(routes), todo).1
        invariant WholeBlocks(format, old(mixer.View())) ==> WholeBlocks(format, mixer.View())
        invariant forall j | 0 <= j < |routes| :: routes[j] in old(routes)
      {
        var point := todo[i];
        assert todo[i..][1..] == todo[i + 1..];
        SweepNext(mixer.View(), routes, todo[i..]);
        if FadeDone(mixer.View(), point) {
          RemoveKeepsWhole(format, mixer.View(), point);
          var removed := mixer.RemoveInput(point);
          WithoutIsOthers(routes, point);
          routes := Without(routes, point);
        } else {
          kept := kept + [point];
        }
      }
      assert todo[|todo|..] == [] && kept + [] == kept;
      SweepNothing(mixer.View(), routes);
      fadingOut := kept;
    }

    /** The bus block of this tick; a full budget of silence when nothing was submitted. */
    method MixSubmitted(frames: nat) returns (block: AudioBlock)
      requires mixer.format == format && WholeBlocks(format, mixer.View())
      ensures block.format == format && block.samples == MixedBlock(Settings(), mixer.View(), frames)
    {
      block := mixer.MixProgram();
      if block.Frames() != frames {
        block := Silence(format, frames);
      } else {
        FrameCount(|block.samples|, format.Channels());
        assert block.samples == MixedBlock(Settings(), mixer.View(), frames);
      }
    }

    /** Moves every fade on by `frames` and retires the finished ones. */
    method AdvanceFades(frames: nat)
      requires Valid()
      modifies this`routes, this`fadingOut, mixer
      ensures Valid()
      ensures var (m, routes', fading) := Sweep(old(mixer.View()).AdvanceRamps(mixer.trig, frames), old(routes), old(fadingOut));
              View() == old(View()).(mixer := m, routes := routes', fading := fading,
                                     stores := Referenced(old(Feeds()), routes'))
    {
      hide Sweep, Referenced, WholeBlocks;
      ghost var feeds := Feeds();
      AdvanceKeepsWhole(format, mixer.trig, mixer.View(), frames);
      mixer.AdvanceRamps(frames);
      RetireCompletedFades();
      assert forall s | s in Stores() :: s in feeds && feeds[s] == FeedOf(s);
      ReferencedAre(feeds, routes, Feeds());
    }

    /** Pulls and mixes `frames` frames, then moves every fade on and retires the finished
        ones.  The block is exactly `frames` frames long, whatever is routed. */
    method MixFrames(frames: nat) returns (block: AudioBlock)
      requires Valid()
      modifies this`routes, this`fadingOut, mixer, Stores()`readFrame
      ensures Valid()
      ensures block.format == format && block.samples == Block(Settings(), old(View()), frames)
      ensures View() == Mix(Settings(), old(View()), frames)
    {
      hide Pull, Sweep, Referenced, MixedBlock, WholeBlocks;
      PullAll(frames);
      block := MixSubmitted(frames);
      AdvanceFades(frames);
    }

    /** The program block of one output tick. */
    method Tick() returns (block: AudioBlock)
      requires Valid()
      modifies this`routes, this`fadingOut, mixer, clock, Stores()`readFrame
      ensures Valid()
      ensures block.format == format && block.samples == TickBlock(Settings(), old(View()), old(clock.ticks) + 1)
      ensures View() == BusModel.TickTo(Settings(), old(View()), old(clock.ticks) + 1)
    {
      block := TickTo(clock.ticks + 1);
    }

    /** The program block up to output tick `target`, catching up skipped ticks. */
    method TickTo(target: nat) returns (block: AudioBlock)
      requires Valid()
      modifies this`routes, this`fadingOut, mixer, clock, Stores()`readFrame
      ensures Valid()
      ensures block.format == format && block.samples == TickBlock(Settings(), old(View()), target)
      ensures View() == BusModel.TickTo(Settings(), old(View()), target)
    {
      ghost var c, b := Settings(), View();
      var frames := clock.AdvanceTo(target);
      assert View() == b.(ticks := clock.ticks);
      MixIgnoresTicks(c, b, clock.ticks, frames);
      assert frames == c.Owed(b.ticks, target) by {
        if target > b.ticks {
          Cadence.TotalMonotone(clock.rate, b.ticks, target);
        }
      }
      block := MixFrames(frames);
    }
  }

  ghost function FeedOf(s: AudioStore): Feed
    reads s
  {
    Feed(s.window, s.readFrame, s.format)
  }

  /** Every submitted block holds whole frames. */
  predicate WholeBlocks(format: AudioFormat, m: Slots) {
    forall i | 0 <= i < |m.slots| && m.slots[i].Some? && m.slots[i].value.latest.Some? ::
      |m.slots[i].value.latest.value| % format.Channels() == 0
  }

  /** The clock's cumulative total is what the bus model asks of it. */
  lemma ClockIsMonotone(format: AudioFormat, trig: Trig, rate: Cadence.ClockRate)
    ensures Setup(format, trig, (t: nat) => rate.TotalAt(t)).Monotone()
  {
    forall a: nat, b: nat | a <= b
      ensures rate.TotalAt(a) <= rate.TotalAt(b)
    {
      Cadence.TotalMonotone(rate, a, b);
    }
  }

  lemma AddKeepsWhole(format: AudioFormat, m: Slots, id: string, gain: real)
    requires WholeBlocks(format, m)
    ensures var (m', p) := m.AddInput(id);
            WholeBlocks(format, m') && WholeBlocks(format, m'.RouteToProgram(p, gain))
  {}

  lemma RemoveKeepsWhole(format: AudioFormat, m: Slots, p: RoutePoint)
    ensures WholeBlocks(format, m) ==> WholeBlocks(format, m.RemoveInput(p))
  {}

  lemma AdvanceKeepsWhole(format: AudioFormat, trig: Trig, m: Slots, frames: nat)
    ensures WholeBlocks(format, m) ==> WholeBlocks(format, m.AdvanceRamps(trig, frames))
  {}

  lemma SetRampKeepsWhole(format: AudioFormat, m: Slots, p: RoutePoint, ramp: GainRamp)
    requires WholeBlocks(format, m)
    ensures WholeBlocks(format, m.SetGainRamp(p, ramp))
  {}

  lemma {:induction false} StoreOfPrefix<S>(routes: seq<(RoutePoint, S)>, p: RoutePoint, r: (RoutePoint, S))
    requires StoreOf(routes, p).Some?
    ensures StoreOf(routes + [r], p) == StoreOf(routes, p)
  {
    assert (routes + [r])[0] == routes[0];
    if routes[0].0 == p {
    } else {
      assert (routes + [r])[1..] == routes[1..] + [r];
      StoreOfPrefix(routes[1..], p, r);
    }
  }

  lemma {:induction false} StoreOfIndex<S>(routes: seq<(RoutePoint, S)>, p: RoutePoint) returns (i: nat)
    requires StoreOf(routes, p).Some?
    ensures i < |routes| && routes[i].1 == StoreOf(routes, p).value
  {
    if routes[0].0 == p {
      return 0;
    }
    i := StoreOfIndex(routes[1..], p);
    i := i + 1;
  }

  /** `held` is what `Referenced` keeps of `feeds` when it holds exactly the routed stores. */
  lemma ReferencedAre<S>(feeds: map<S, Feed>, routes: seq<(RoutePoint, S)>, held: map<S, Feed>)
    requires held.Keys == set i | 0 <= i < |routes| :: routes[i].1
    requires forall s | s in held :: s in feeds && feeds[s] == held[s]
    ensures Referenced(feeds, routes) == held
  {}

  lemma {:induction false} ReboundIndex<S>(routes: seq<(RoutePoint, S)>, p: RoutePoint, s: S) returns (i: nat)
    requires StoreOf(routes, p).Some?
    ensures i < |routes| && Rebind(routes, p, s)[i] == (p, s)
  {
    if routes[0].0 == p {
      return 0;
    }
    i := ReboundIndex(routes[1..], p, s);
    i := i + 1;
  }
}
