/** A routed store at another format: what the mix emits when it must refuse a store's blocks. */
module BusFormat {
  import opened Audio
  import opened Mixer
  import opened Store
  import opened BusModel
  import opened BusInvariant
  import opened BusRuns
  import opened BusShared
  import opened BusFade

  /** Route `j` reads a store that is not at the bus format. */
  ghost predicate Mismatched<S>(c: Setup, b: Bus<S>, j: nat) {
    BusInv(b) && j < |b.routes| && b.stores[b.routes[j].1].format != c.format
  }

  /** A refused block leaves the strip with the last one it accepted; the store's cursor moves on
      all the same. */
  lemma MismatchedStripIsKept<S>(c: Setup, b: Bus<S>, frames: nat, j: nat)
    requires Mismatched(c, b, j)
    ensures b.mixer.Names(b.routes[j].0)
    ensures var (after, s) := (Pull(c, b, frames, |b.routes|), b.routes[j].1);
            && after.mixer.Names(b.routes[j].0)
            && after.mixer.slots[b.routes[j].0.input] == b.mixer.slots[b.routes[j].0.input]
            && after.stores[s].cursor == b.stores[s].cursor + Ahead(b.routes, |b.routes|, s) * frames
  {
    RoutesAreApart(b);
    PullFeeds(c, b, frames, |b.routes|, j);
    PullMovesCursor(c, b, frames, |b.routes|, b.routes[j].1);
  }

  // ---- the mix without one block -------------------------------------------------------------

  /** The strips with the block of slot `x` dropped. */
  function WithoutBlock(m: Slots, x: nat): (r: Slots)
    ensures |r.slots| == |m.slots|
  {
    if x < |m.slots| && m.slots[x].Some? then m.(slots := m.slots[x := Some(m.slots[x].value.(latest := None))]) else m
  }

  lemma {:induction false} SumWithout(m: Slots, x: nat, trig: Trig, channels: nat, n: nat, k: nat)
    requires channels > 0 && n <= |m.slots| && x < |m.slots| && m.slots[x].Some?
    ensures m.BusSum(trig, channels, n, k)
            == WithoutBlock(m, x).BusSum(trig, channels, n, k)
               + if x < n then m.slots[x].value.Contribution(trig, channels, k) else 0.0
  {
    if n == 0 {
    } else {
      SumWithout(m, x, trig, channels, n - 1, k);
    }
  }

  lemma {:induction false} FramesWithout(m: Slots, x: nat, channels: nat, n: nat)
    requires channels > 0 && n <= |m.slots| && x < |m.slots| && m.slots[x].Some?
    ensures m.MixFrames(channels, n)
            == Max(WithoutBlock(m, x).MixFrames(channels, n), if x < n then SlotFrames(channels, m.slots[x]) else 0)
  {
    if n == 0 {
    } else {
      FramesWithout(m, x, channels, n - 1);
    }
  }

  /** The strips of this tick with the block of route `j` dropped, and the block they mix to. */
  ghost function OtherStrips<S>(c: Setup, b: Bus<S>, frames: nat, j: nat): Slots
    requires Stored(b) && j < |b.routes|
  {
    WithoutBlock(Pull(c, b, frames, |b.routes|).mixer, b.routes[j].0.input)
  }

  ghost function DroppedBlock<S>(c: Setup, b: Bus<S>, frames: nat, j: nat): (r: seq<real>)
    requires Stored(b) && j < |b.routes|
    ensures |r| == frames * c.C()
  {
    MixedBlock(c, OtherStrips(c, b, frames, j), frames)
  }

  /** The unclamped sum of the other strips at sample `k`. */
  ghost function OtherSum<S>(c: Setup, b: Bus<S>, frames: nat, j: nat, k: nat): real
    requires Stored(b) && j < |b.routes|
  {
    OtherStrips(c, b, frames, j).BusSum(c.trig, c.C(), |OtherStrips(c, b, frames, j).slots|, k)
  }

  ghost function OtherFrames<S>(c: Setup, b: Bus<S>, frames: nat, j: nat): nat
    requires Stored(b) && j < |b.routes|
  {
    OtherStrips(c, b, frames, j).MixFrames(c.C(), |OtherStrips(c, b, frames, j).slots|)
  }

  /** What the bus emits with a kept block among its strips, by its length against the tick's.
      Longer: the mix is not the tick's length, so the whole bus is silent.  As long, or shorter
      while the others fill the tick: it is played over them.  Shorter with the tick not filled:
      the bus is silent. */
  lemma StaleBlockEmits<S>(c: Setup, b: Bus<S>, frames: nat, j: nat)
    requires Mismatched(c, b, j)
    ensures b.mixer.Names(b.routes[j].0)
    ensures var strip := b.mixer.slots[b.routes[j].0.input].value;
            var kept, others := SlotFrames(c.C(), Some(strip)), OtherFrames(c, b, frames, j);
            && (kept > frames || others > frames ==> Block(c, b, frames) == Zeros(frames * c.C()))
            && (Max(kept, others) == frames ==> forall k | 0 <= k < frames * c.C() ::
                  Block(c, b, frames)[k] == ClampUnit(OtherSum(c, b, frames, j, k) + strip.Contribution(c.trig, c.C(), k)))
            && (Max(kept, others) < frames ==> Block(c, b, frames) == Zeros(frames * c.C()))
    ensures var others := OtherFrames(c, b, frames, j);
            && (others == frames ==> forall k | 0 <= k < frames * c.C() ::
                  DroppedBlock(c, b, frames, j)[k] == ClampUnit(OtherSum(c, b, frames, j, k)))
            && (others != frames ==> DroppedBlock(c, b, frames, j) == Zeros(frames * c.C()))
  {
    MismatchedStripIsKept(c, b, frames, j);
    hide BusInv, Pull;
    var m, x := Pull(c, b, frames, |b.routes|).mixer, b.routes[j].0.input;
    FramesWithout(m, x, c.C(), |m.slots|);
    forall k | 0 <= k < frames * c.C()
      ensures m.BusSum(c.trig, c.C(), |m.slots|, k)
              == OtherSum(c, b, frames, j, k) + m.slots[x].value.Contribution(c.trig, c.C(), k)
    {
      SumWithout(m, x, c.trig, c.C(), |m.slots|, k);
    }
  }

  // ---- whether a refused input is dropped ------------------------------------------------------

  /** Nothing but route `j` is at another format. */
  ghost predicate OnlyMismatch<S>(c: Setup, b: Bus<S>, j: nat) {
    Mismatched(c, b, j) && forall i | 0 <= i < |b.routes| && i != j :: b.stores[b.routes[i].1].format == c.format
  }

  /** Every other strip is fed for the whole tick. */
  lemma OthersAreFed<S>(c: Setup, b: Bus<S>, frames: nat, j: nat, y: nat)
    requires OnlyMismatch(c, b, j) && y < |b.mixer.slots| && y != b.routes[j].0.input
    ensures var m := OtherStrips(c, b, frames, j);
            && |m.slots| == |b.mixer.slots|
            && SlotFrames(c.C(), m.slots[y]) == (if m.slots[y].Some? then frames else 0)
            && (m.slots[y].Some? <==> b.mixer.slots[y].Some?)
            && forall k | 0 <= k < frames * c.C() ::
                 SlotHears(c, b, frames, y, k) == if m.slots[y].Some? then m.slots[y].value.Contribution(c.trig, c.C(), k) else 0.0
  {
    RoutesAreApart(b);
    SlotIsFed(c, b, frames, y);
    MismatchedStripIsKept(c, b, frames, j);
    hide Pull;
    forall k | 0 <= k < frames * c.C()
      ensures b.mixer.slots[y].None? ==> SlotHears(c, b, frames, y, k) == 0.0
    {
      EmptyHearsNothing(c, b, frames, y, k);
    }
  }

  lemma {:induction false} OthersFillTick<S>(c: Setup, b: Bus<S>, frames: nat, j: nat, n: nat)
    requires OnlyMismatch(c, b, j) && n <= |b.mixer.slots|
    ensures |OtherStrips(c, b, frames, j).slots| == |b.mixer.slots|
    ensures OtherStrips(c, b, frames, j).MixFrames(c.C(), n) <= frames
    ensures forall y | 0 <= y < n && b.mixer.slots[y].Some? && y != b.routes[j].0.input ::
              OtherStrips(c, b, frames, j).MixFrames(c.C(), n) == frames
  {
    MismatchedStripIsKept(c, b, frames, j);
    PulledSlots(c, b, frames);
    hide Pull, BusInv;
    if n == 0 {
    } else {
      OthersFillTick(c, b, frames, j, n - 1);
      if n - 1 != b.routes[j].0.input {
        OthersAreFed(c, b, frames, j, n - 1);
      }
    }
  }

  /** If route `j` has nothing in its store, the other strips sum to what all routes hear. */
  lemma OtherSumIsHeard<S>(c: Setup, b: Bus<S>, frames: nat, j: nat, k: nat)
    requires OnlyMismatch(c, b, j) && k < frames * c.C() && RouteHears(c, b, frames, j, k) == 0.0
    ensures OtherSum(c, b, frames, j, k) == HeardSum(c, b, frames, |b.mixer.slots|, k)
  {
    var m, x := OtherStrips(c, b, frames, j), b.routes[j].0.input;
    MismatchedStripIsKept(c, b, frames, j);
    PulledSlots(c, b, frames);
    hide Pull, BusInv, RouteHears, SlotHears;
    forall y | 0 <= y < |b.mixer.slots|
      ensures SlotHears(c, b, frames, y, k) == if m.slots[y].Some? then m.slots[y].value.Contribution(c.trig, c.C(), k) else 0.0
    {
      if y == x {
        var i := SlotHearsItsRoute(c, b, frames, y, k);
        assert i == j;
      } else {
        OthersAreFed(c, b, frames, j, y);
      }
    }
    SlotwiseHeard(c, b, frames, m, |b.mixer.slots|, k);
  }

  /** No channel but that of route `j` is heard in the tick. */
  ghost predicate NoOtherHeard<S>(c: Setup, b: Bus<S>, frames: nat, j: nat) {
    forall i, f | 0 <= i < |b.routes| && i != j && 0 <= f < frames :: RouteGain(c, b, i, f) == 0.0
  }

  predicate Inaudible(c: Setup, strip: Strip, frames: nat)
    requires strip.latest.Some?
  {
    forall k | 0 <= k < frames * c.C() && k < |strip.latest.value| ::
      strip.GainAt(c.trig, k / c.C()) == 0.0 || strip.latest.value[k] == 0.0
  }

  /** The kept block makes no difference: there is none, or it is longer than the tick with no
      other channel to silence, or it is silent where it is heard, or it is shorter than the tick
      and alone on the bus. */
  ghost predicate Harmless<S>(c: Setup, b: Bus<S>, frames: nat, j: nat)
    requires j < |b.routes| && b.mixer.Names(b.routes[j].0)
  {
    var strip := b.mixer.slots[b.routes[j].0.input].value;
    strip.latest.Some? ==>
      var kept := |strip.latest.value| / c.C();
      if kept > frames then NoOtherHeard(c, b, frames, j)
      else Inaudible(c, strip, frames) || (kept < frames && |b.routes| == 1)
  }

  /** A refused input is said to be dropped for the tick.  Over everything the stores may hold, the
      bus emits what it would with the input dropped exactly when the strip's kept block is
      harmless: one that sounds is played again over the others, and one longer than the tick, even
      a silent one, silences them. */
  lemma MismatchIsDroppedIff<S>(c: Setup, b: Bus<S>, frames: nat, j: nat)
    requires OnlyMismatch(c, b, j)
    ensures b.mixer.Names(b.routes[j].0) && Stored(b)
    ensures (forall w: map<S, RingSnapshot> ::
               Block(c, Holding(b, w), frames) == DroppedBlock(c, Holding(b, w), frames, j))
            <==> Harmless(c, b, frames, j)
  {
    StaleBlockEmits(c, b, frames, j);
    InvIsStored(b);
    hide BusInv, OnlyMismatch, RouteGain, Holding, Block, DroppedBlock, OtherFrames, OtherSum;
    var strip := b.mixer.slots[b.routes[j].0.input].value;
    if Harmless(c, b, frames, j) {
      forall w: map<S, RingSnapshot>
        ensures Block(c, Holding(b, w), frames) == DroppedBlock(c, Holding(b, w), frames, j)
      {
        HarmlessIsDropped(c, b, frames, j, w);
      }
    } else if |strip.latest.value| / c.C() > frames {
      var i, f :| 0 <= i < |b.routes| && i != j && 0 <= f < frames && RouteGain(c, b, i, f) != 0.0;
      var w := LongBlockSilences(c, b, frames, j, i, f);
      assert Block(c, Holding(b, w), frames) != DroppedBlock(c, Holding(b, w), frames, j);
    } else {
      SoundingBlockIsPlayed(c, b, frames, j);
      assert Block(c, Holding(b, map[]), frames) != DroppedBlock(c, Holding(b, map[]), frames, j);
    }
  }

  lemma HoldingKeepsMismatch<S>(c: Setup, b: Bus<S>, j: nat, w: map<S, RingSnapshot>)
    requires OnlyMismatch(c, b, j)
    ensures OnlyMismatch(c, Holding(b, w), j)
  {
    HoldingKeepsInv(b, w);
    hide BusInv;
  }

  /** Another channel fills the tick. */
  lemma OtherFillsTick<S>(c: Setup, b: Bus<S>, frames: nat, j: nat, i: nat)
    requires OnlyMismatch(c, b, j) && i < |b.routes| && i != j
    ensures OtherFrames(c, b, frames, j) == frames
  {
    RoutesAreApart(b);
    assert b.mixer.Names(b.routes[i].0);
    OthersFillTick(c, b, frames, j, |b.mixer.slots|);
    hide BusInv, Pull;
    assert b.mixer.slots[b.routes[i].0.input].Some? && b.routes[i].0.input != b.routes[j].0.input;
  }

  /** With no other channel there is nothing else to mix. */
  lemma AloneFillsNothing<S>(c: Setup, b: Bus<S>, frames: nat, j: nat)
    requires OnlyMismatch(c, b, j) && |b.routes| == 1
    ensures OtherFrames(c, b, frames, j) == 0
  {
    MismatchedStripIsKept(c, b, frames, j);
    PulledSlots(c, b, frames);
    var m := OtherStrips(c, b, frames, j);
    hide Pull, BusInv;
    forall y | 0 <= y < |m.slots|
      ensures SlotFrames(c.C(), m.slots[y]) == 0
    {
      if y != b.routes[j].0.input {
        AloneInItsSlot(b, j, y);
        OthersAreFed(c, b, frames, j, y);
      }
    }
    NoFrames(m, c.C(), |m.slots|);
  }

  lemma AloneInItsSlot<S>(b: Bus<S>, j: nat, y: nat)
    requires BusInv(b) && |b.routes| == 1 && j == 0 && y < |b.mixer.slots| && y != b.routes[j].0.input
    ensures b.mixer.slots[y].None?
  {
    assert b.mixer.slots[y].Some? ==> Carries(b.routes, RoutePoint(y, b.mixer.generations[y]));
  }

  lemma {:induction false} NoFrames(m: Slots, channels: nat, n: nat)
    requires channels > 0 && n <= |m.slots| && forall y | 0 <= y < n :: SlotFrames(channels, m.slots[y]) == 0
    ensures m.MixFrames(channels, n) == 0
  {
    if n == 0 {
    } else {
      NoFrames(m, channels, n - 1);
    }
  }

  lemma {:induction false} NothingSums(m: Slots, trig: Trig, channels: nat, n: nat, k: nat)
    requires channels > 0 && n <= |m.slots|
    requires forall y | 0 <= y < n && m.slots[y].Some? :: m.slots[y].value.Contribution(trig, channels, k) == 0.0
    ensures m.BusSum(trig, channels, n, k) == 0.0
  {
    if n == 0 {
    } else {
      NothingSums(m, trig, channels, n - 1, k);
    }
  }

  /** Channels that are not heard add nothing. */
  lemma UnheardOthersAddNothing<S>(c: Setup, b: Bus<S>, frames: nat, j: nat, k: nat)
    requires OnlyMismatch(c, b, j) && NoOtherHeard(c, b, frames, j) && k < frames * c.C()
    ensures Stored(b) && OtherSum(c, b, frames, j, k) == 0.0
  {
    InvIsStored(b);
    MismatchedStripIsKept(c, b, frames, j);
    PulledSlots(c, b, frames);
    FrameOf(k, frames, c.C());
    var m := OtherStrips(c, b, frames, j);
    hide Pull, BusInv, SlotHears, RouteHears;
    forall y | 0 <= y < |m.slots| && m.slots[y].Some?
      ensures m.slots[y].value.Contribution(c.trig, c.C(), k) == 0.0
    {
      if y != b.routes[j].0.input {
        OthersAreFed(c, b, frames, j, y);
        var i := SlotHearsItsRoute(c, b, frames, y, k);
        if i < |b.routes| {
          UnheardRouteIsSilent(c, b, frames, i, k);
        }
      }
    }
    NothingSums(m, c.trig, c.C(), |m.slots|, k);
  }

  lemma UnheardRouteIsSilent<S>(c: Setup, b: Bus<S>, frames: nat, i: nat, k: nat)
    requires BusInv(b) && i < |b.routes| && k / c.C() >= 0 && RouteGain(c, b, i, k / c.C()) == 0.0
    ensures RouteHears(c, b, frames, i, k) == 0.0
  {
    InvIsStored(b);
    assert b.mixer.Names(b.routes[i].0);
    hide BusInv;
    assert forall x: real :: Scale(0.0, x) == 0.0;
  }

  lemma HarmlessIsDropped<S>(c: Setup, b: Bus<S>, frames: nat, j: nat, w: map<S, RingSnapshot>)
    requires OnlyMismatch(c, b, j) && b.mixer.Names(b.routes[j].0) && Harmless(c, b, frames, j)
    ensures Stored(b) && Block(c, Holding(b, w), frames) == DroppedBlock(c, Holding(b, w), frames, j)
  {
    InvIsStored(b);
    var held, strip := Holding(b, w), b.mixer.slots[b.routes[j].0.input].value;
    HoldingKeepsMismatch(c, b, j, w);
    StaleBlockEmits(c, held, frames, j);
    KeptContributes(b, j);
    if |b.routes| == 1 {
      AloneFillsNothing(c, held, frames, j);
    } else {
      OtherFillsTick(c, held, frames, j, if j == 0 then 1 else 0);
    }
    forall i, f: nat | 0 <= i < |b.routes|
      ensures RouteGain(c, held, i, f) == RouteGain(c, b, i, f)
    {
      SameGain(c, b, w, i, f);
    }
    assert NoOtherHeard(c, b, frames, j) ==> NoOtherHeard(c, held, frames, j);
    hide BusInv, OnlyMismatch, Block, DroppedBlock, OtherSum, OtherFrames, Holding, RouteGain, NoOtherHeard;
    forall k | 0 <= k < frames * c.C()
      ensures Block(c, held, frames)[k] == DroppedBlock(c, held, frames, j)[k]
    {
      if |b.routes| == 1 || SlotFrames(c.C(), Some(strip)) > frames {
        AloneIsUnheard(c, b, frames, j);
        UnheardOthersAddNothing(c, held, frames, j, k);
      }
      if strip.latest.None? || Inaudible(c, strip, frames) {
        SilentContribution(c, strip, frames, k);
      }
    }
  }

  lemma AloneIsUnheard<S>(c: Setup, b: Bus<S>, frames: nat, j: nat)
    ensures |b.routes| == 1 && j == 0 ==> NoOtherHeard(c, b, frames, j)
  {}

  lemma SilentContribution(c: Setup, strip: Strip, frames: nat, k: nat)
    requires k < frames * c.C() && (strip.latest.Some? ==> Inaudible(c, strip, frames))
    ensures strip.Contribution(c.trig, c.C(), k) == 0.0
  {
    if strip.latest.Some? && k < |strip.latest.value| {
      var g := strip.GainAt(c.trig, k / c.C());
      assert Scale(g, 0.0) == 0.0 && Scale(0.0, strip.latest.value[k]) == 0.0;
    }
  }

  /** A kept block that outlasts the tick silences the channel beside it. */
  lemma LongBlockSilences<S>(c: Setup, b: Bus<S>, frames: nat, j: nat, i: nat, f: nat) returns (w: map<S, RingSnapshot>)
    requires OnlyMismatch(c, b, j) && b.mixer.Names(b.routes[j].0)
    requires i < |b.routes| && i != j && f < frames && RouteGain(c, b, i, f) != 0.0
    requires SlotFrames(c.C(), b.mixer.slots[b.routes[j].0.input]) > frames
    ensures Stored(b) && Block(c, Holding(b, w), frames) == Zeros(frames * c.C()) != DroppedBlock(c, Holding(b, w), frames, j)
  {
    InvIsStored(b);
    w := map[b.routes[i].1 := Impulse(c.C(), ReadsAt(b, frames, i) + f)];
    var held := Holding(b, w);
    HoldingKeepsMismatch(c, b, j, w);
    StaleBlockEmits(c, held, frames, j);
    OtherFillsTick(c, held, frames, j, i);
    OthersHearNothing(c, b, i, f, frames);
    ReaderHears(c, b, i, f, frames);
    ScaleStrict(f, frames, c.C());
    OtherSumIsHeard(c, held, frames, j, f * c.C());
    hide BusInv, OnlyMismatch, RouteHears, RouteGain, Block, DroppedBlock, OtherSum, OtherFrames, Holding, HeardSum, Impulse, ReadsAt;
    LoneSum(c, held, frames, |b.mixer.slots|, f * c.C(), i);
    assert DroppedBlock(c, held, frames, j)[f * c.C()] != 0.0;
  }

  /** A kept block that sounds, as long as the tick or shorter beside others, is played once more. */
  lemma SoundingBlockIsPlayed<S>(c: Setup, b: Bus<S>, frames: nat, j: nat)
    requires OnlyMismatch(c, b, j) && b.mixer.Names(b.routes[j].0)
    requires var strip := b.mixer.slots[b.routes[j].0.input].value;
             && strip.latest.Some? && !Inaudible(c, strip, frames)
             && (|strip.latest.value| / c.C() == frames || (|strip.latest.value| / c.C() < frames && |b.routes| > 1))
    ensures Stored(b) && Block(c, Holding(b, map[]), frames) != DroppedBlock(c, Holding(b, map[]), frames, j)
  {
    InvIsStored(b);
    var held, strip := Holding(b, map[]), b.mixer.slots[b.routes[j].0.input].value;
    var k :| 0 <= k < frames * c.C() && k < |strip.latest.value|
             && strip.GainAt(c.trig, k / c.C()) != 0.0 && strip.latest.value[k] != 0.0;
    HoldingKeepsMismatch(c, b, j, map[]);
    StaleBlockEmits(c, held, frames, j);
    if |b.routes| == 1 {
      AloneFillsNothing(c, held, frames, j);
    } else {
      OtherFillsTick(c, held, frames, j, if j == 0 then 1 else 0);
    }
    FrameOf(k, frames, c.C());
    OnlySilenceIsSilent(strip.GainAt(c.trig, k / c.C()), strip.latest.value[k]);
    KeptContributes(b, j);
    EmptyStoresAreSilent(c, b, frames, k);
    OtherSumIsHeard(c, held, frames, j, k);
    hide BusInv, OnlyMismatch, RouteHears, RouteGain, Block, DroppedBlock, OtherSum, OtherFrames, Holding, HeardSum;
    SilentSum(c, held, frames, |b.mixer.slots|, k);
    assert DroppedBlock(c, held, frames, j)[k] == 0.0;
    assert Block(c, held, frames)[k] != 0.0;
  }

  lemma KeptContributes<S>(b: Bus<S>, j: nat)
    requires BusInv(b) && j < |b.routes| && b.mixer.Names(b.routes[j].0)
    ensures b.mixer.slots[b.routes[j].0.input].value.routed
  {}

  lemma EmptyStoresAreSilent<S>(c: Setup, b: Bus<S>, frames: nat, k: nat)
    requires BusInv(b)
    ensures BusInv(Holding(b, map[]))
    ensures forall i | 0 <= i < |b.routes| :: RouteHears(c, Holding(b, map[]), frames, i, k) == 0.0
  {
    HoldingKeepsInv(b, map[]);
    forall i | 0 <= i < |b.routes|
      ensures RouteHears(c, Holding(b, map[]), frames, i, k) == 0.0
    {
      assert b.mixer.Names(b.routes[i].0);
      assert Scale(b.mixer.slots[b.routes[i].0.input].value.GainAt(c.trig, k / c.C()), 0.0) == 0.0;
    }
  }

  lemma OnlySilenceIsSilent(g: real, x: real)
    requires g != 0.0
    ensures Scale(g, x) == 0.0 <==> x == 0.0
  {
    if x != 0.0 {
      assert g * x != 0.0;
    }
  }

  // ---- it is reachable ---------------------------------------------------------------------------

  /** Re-pointing onto a store at another format leaves the channel's strip as it is, and mismatched. */
  lemma RepointedIsMismatched<S>(c: Setup, b: Bus<S>, p: RoutePoint, s: S, feed: Feed) returns (j: nat)
    requires BusInv(b) && StoreOf(b.routes, p).Some? && feed.format != c.format
    ensures b.mixer.Names(p) && Repoint(c, b, p, s, feed).mixer == b.mixer
    ensures Mismatched(c, Repoint(c, b, p, s, feed), j) && Repoint(c, b, p, s, feed).routes[j].0 == p
  {
    RepointKeepsInv(c, b, p, s, feed);
    RepointMovesOneChannel(c, b, p, s, feed, p);
    var b' := Repoint(c, b, p, s, feed);
    StoreOfIsCarries(b'.routes, p);
    j :| 0 <= j < |b'.routes| && b'.routes[j] == (p, s);
    assert b.mixer.Names(b'.routes[j].0);
  }

  /** What the bus emits while `kept` is among its strips: nothing in a tick shorter than its
      block; in one of its length, with the others no longer, its block over theirs. */
  ghost predicate PlaysKept<S>(c: Setup, b: Bus<S>, frames: nat, j: nat, kept: Strip)
    requires Stored(b) && j < |b.routes|
  {
    && (SlotFrames(c.C(), Some(kept)) > frames ==> Block(c, b, frames) == Zeros(frames * c.C()))
    && (SlotFrames(c.C(), Some(kept)) == frames && OtherFrames(c, b, frames, j) <= frames ==>
          forall k | 0 <= k < frames * c.C() ::
            Block(c, b, frames)[k] == ClampUnit(OtherSum(c, b, frames, j, k) + kept.Contribution(c.trig, c.C(), k)))
  }

  lemma MismatchPlaysKept<S>(c: Setup, b: Bus<S>, frames: nat, j: nat)
    requires Mismatched(c, b, j)
    ensures b.mixer.Names(b.routes[j].0)
    ensures PlaysKept(c, b, frames, j, b.mixer.slots[b.routes[j].0.input].value)
  {
    StaleBlockEmits(c, b, frames, j);
    hide BusInv, Block, OtherSum, OtherFrames, SlotFrames;
  }

  /** A channel re-pointed onto a store at another format keeps the last block it mixed: any
      shorter tick is silent from then on, whatever else is routed, and one of its length plays
      it again. */
  lemma RepointedMismatchReplays<S>(c: Setup, b: Bus<S>, p: RoutePoint, s: S, feed: Feed, frames: nat) returns (j: nat)
    requires BusInv(b) && StoreOf(b.routes, p).Some? && feed.format != c.format
    ensures b.mixer.Names(p)
    ensures var b' := Repoint(c, b, p, s, feed);
            && BusInv(b') && j < |b'.routes| && b'.routes[j].0 == p
            && Pull(c, b', frames, |b'.routes|).mixer.Names(p)
            && Pull(c, b', frames, |b'.routes|).mixer.slots[p.input] == b.mixer.slots[p.input]
            && PlaysKept(c, b', frames, j, b.mixer.slots[p.input].value)
  {
    j := RepointedIsMismatched(c, b, p, s, feed);
    var b' := Repoint(c, b, p, s, feed);
    MismatchedStripIsKept(c, b', frames, j);
    MismatchPlaysKept(c, b', frames, j);
    hide Repoint, Pull, PlaysKept, Matched, Fading, Stored;
  }

  const WIDE: AudioFormat := AudioFormat(48_000, Stereo)
  const NARROW: AudioFormat := AudioFormat(48_000, Mono)

  /** A mono bus: one channel holding half scale, and one re-pointed onto a stereo store after a
      silent block of two frames. */
  function TwoChannels(): Bus<nat> {
    Bus(Slots([Some(Strip("a", 1.0, true, None, None)), Some(Strip("b", 1.0, true, Some([0.0, 0.0]), None))], [0, 0], []), 0,
        [(RoutePoint(0, 0), 0), (RoutePoint(1, 0), 1)], [],
        map[0 := Feed(RingSnapshot(0, [0.5]), 0, NARROW), 1 := Feed(RingSnapshot(0, []), 0, WIDE)])
  }

  /** Its silent kept block is one frame longer than the tick, and silences the other channel. */
  lemma LongSilentBlockSilencesAll(trig: Trig, total: nat -> nat)
    ensures var c, b := Setup(NARROW, trig, total), TwoChannels();
            BusInv(b) && Block(c, b, 1) == [0.0] && DroppedBlock(c, b, 1, 1) == [0.5]
  {
    var c, b := Setup(NARROW, trig, total), TwoChannels();
    TwoChannelsAreSound();
    StaleBlockEmits(c, b, 1, 1);
    assert Pull(c, b, 1, 2) == Pull(c, b, 1, |b.routes|);
    TwoPulled(c);
    hide BusInv, Pull;
    var m := OtherStrips(c, b, 1, 1);
    assert m.slots[0].value.latest == Some([0.5]) && m.slots[1].value.latest.None?;
    SumOfTwo(m, trig, 1, 0);
    assert m.MixFrames(1, 2) == 1;
    assert Scale(1.0, 0.5) == 0.5;
  }

  lemma SumOfTwo(m: Slots, trig: Trig, channels: nat, k: nat)
    requires channels > 0 && |m.slots| == 2 && m.slots[0].Some? && m.slots[1].Some?
    ensures m.BusSum(trig, channels, 2, k)
            == m.slots[0].value.Contribution(trig, channels, k) + m.slots[1].value.Contribution(trig, channels, k)
    ensures m.MixFrames(channels, 2) == Max(SlotFrames(channels, m.slots[0]), SlotFrames(channels, m.slots[1]))
  {
    assert m.BusSum(trig, channels, 1, k) == m.slots[0].value.Contribution(trig, channels, k);
    assert m.MixFrames(channels, 1) == SlotFrames(channels, m.slots[0]);
  }

  lemma TwoChannelsAreSound()
    ensures BusInv(TwoChannels()) && Stored(TwoChannels())
  {
    var b := TwoChannels();
    assert b.routes[0].0 == RoutePoint(0, 0) && b.routes[1].0 == RoutePoint(1, 0);
  }

  lemma TwoPulled(c: Setup)
    requires c.format == NARROW
    ensures Stored(TwoChannels())
    ensures Pull(c, TwoChannels(), 1, 2).mixer
            == TwoChannels().mixer.(slots := TwoChannels().mixer.slots[0 := Some(Strip("a", 1.0, true, Some([0.5]), None))])
  {
    var b := TwoChannels();
    TwoChannelsAreSound();
    PullStart(c, b, 1);
    PullNext(c, b, 1, 0);
    PullNext(c, b, 1, 1);
    assert RingSnapshot(0, [0.5]).At(1, 0) == 0.5;
    assert RingSnapshot(0, [0.5]).Slice(1, 0, 1) == [0.5];
  }
}
