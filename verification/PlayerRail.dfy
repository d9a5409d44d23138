/** The two threads of a player's audio rail, step by step: the fill loop that follows the video
    and replaces the lookahead window, and the bus that reads it. */
module PlayerRail {
  import opened Audio
  import opened Mixer
  import opened LoopDeck
  import opened DeckTheorems
  import opened Store
  import opened PlayerAudio

  /** Where the fill loop stands: about to sample the control bus, about to load the reader's
      cursor, or holding a loaded cursor it has not published at yet. */
  datatype Pc = Top | Sampled | Loaded(cursor: nat)

  /** Where the bus stands: between reads, or inside one, its cursor already moved past the
      frames it asks for and the window not loaded yet. */
  datatype Reading = Rest | Mid(start: int, frames: nat)

  /** `seen` is the last cursor the fill loop loaded. */
  datatype Rail = Rail(bus: PlayerControl, nextGen: nat, lastGen: nat, deck: Transport, window: RingSnapshot,
                       reader: int, reading: Reading, seen: nat, pc: Pc)

  /** The video rail posts a control; the fill loop follows it, loads the cursor and replaces the
      window; the bus moves the cursor, then loads the window and hears it.  Each is an atomic
      step of its own, and the cursor loaded may be an older one than the reader's. */
  datatype Event =
    | Post(state: AudioTransport, anchor: Option<int>) | Follow | Load(cursor: nat) | Publish
    | Advance(frames: nat) | Hear

  predicate Enabled(r: Rail, e: Event) {
    match e
    case Post(_, _) => true
    case Follow => r.pc.Top?
    case Load(cursor) => r.pc.Sampled? && r.seen <= cursor <= Max(r.reader, 0)
    case Publish => r.pc.Loaded?
    case Advance(_) => r.reading.Rest?
    case Hear => r.reading.Mid?
  }

  function Next(trig: Trig, tape: Tape, r: Rail, e: Event): Rail
    requires tape.Sound() && Enabled(r, e)
  {
    match e
    case Post(state, anchor) => r.(bus := PlayerControl(r.nextGen, state, anchor), nextGen := r.nextGen + 1)
    case Follow =>
      r.(deck := Followed(r.deck, tape.loopFrames, r.lastGen, r.bus), lastGen := r.bus.generation, pc := Sampled)
    case Load(cursor) => r.(pc := Loaded(cursor), seen := cursor)
    case Publish =>
      var (deck, window) := Refill(trig, tape, r.deck, r.window, r.pc.cursor);
      r.(deck := deck, window := window, pc := Top)
    case Advance(n) => r.(reader := r.reader + n, reading := Mid(r.reader, n))
    case Hear => r.(reading := Rest)
  }

  /** What the bus hears in one step. */
  function Heard(tape: Tape, r: Rail, e: Event): seq<real> {
    if e.Hear? && r.reading.Mid? then r.window.Slice(tape.C(), r.reading.start, r.reading.frames) else []
  }

  /** The first frame the bus has not heard yet. */
  function Frontier(r: Rail): int {
    if r.reading.Mid? then r.reading.start else r.reader
  }

  /** What every step keeps of the cursors. */
  predicate Orderly(r: Rail) {
    && r.seen <= r.reader && 0 <= Frontier(r)
    && (r.pc.Loaded? ==> r.pc.cursor == r.seen)
    && (r.reading.Mid? ==> r.reading.start + r.reading.frames == r.reader)
  }

  lemma StepKeepsOrder(trig: Trig, tape: Tape, r: Rail, e: Event)
    requires tape.Sound() && Orderly(r) && Enabled(r, e)
    ensures Orderly(Next(trig, tape, r, e)) && Frontier(Next(trig, tape, r, e)) >= Frontier(r)
  {}

  /** A step that observes no new control. */
  predicate Quiet(r: Rail, e: Event) {
    e.Follow? ==> r.bus.generation == r.lastGen
  }

  /** A control followed once stays followed: until the next post, no step observes anything new. */
  lemma FollowedStaysFollowed(trig: Trig, tape: Tape, r: Rail, e: Event)
    requires tape.Sound() && Enabled(r, e) && !e.Post? && (e.Follow? || r.bus.generation == r.lastGen)
    ensures var now := Next(trig, tape, r, e);
            now.bus.generation == now.lastGen && forall e': Event :: Quiet(now, e')
  {
    hide DeckSlice;
  }

  ghost predicate QuietRun(trig: Trig, tape: Tape, r: Rail, run: seq<Event>)
    requires tape.Sound()
    decreases |run|
  {
    run != [] ==> Enabled(r, run[0]) && Quiet(r, run[0]) && QuietRun(trig, tape, Next(trig, tape, r, run[0]), run[1..])
  }

  function After(trig: Trig, tape: Tape, r: Rail, run: seq<Event>): Rail
    requires tape.Sound() && QuietRun(trig, tape, r, run)
    decreases |run|
  {
    if run == [] then r else After(trig, tape, Next(trig, tape, r, run[0]), run[1..])
  }

  // ---- in step with the deck --------------------------------------------------------------

  /** The window is exactly what the deck, in its present state, plays from its base up to the
      horizon, and that base is a cursor the fill loop has seen. */
  predicate InSync(trig: Trig, tape: Tape, r: Rail)
    requires tape.Sound()
  {
    var base := r.window.base;
    && Orderly(r) && 0 <= base <= r.seen
    && !(r.deck.recue && r.deck.state.Vamping? && r.deck.Audible(tape.loopFrames))
    && var end := Horizon(r.deck, tape.xfade, base);
       base < end && r.window == RingSnapshot(base, DeckSlice(trig, tape, r.deck, base, end - base))
  }

  predicate SameSound(t: Transport, u: Transport) {
    t.state == u.state && t.phase == u.phase
  }

  /** A publish whose settle frame is still ahead of the loaded cursor puts the window in
      step with the deck, whatever stale material it held. */
  lemma PublishSyncs(trig: Trig, tape: Tape, r: Rail)
    requires tape.Sound() && Orderly(r) && r.pc.Loaded?
    requires Horizon(r.deck, tape.xfade, r.pc.cursor) > r.pc.cursor
    ensures InSync(trig, tape, Next(trig, tape, r, Publish))
    ensures r.deck.state.Exiting? ==> SameSound(r.deck, Next(trig, tape, r, Publish).deck)
  {}

  lemma StepKeepsSync(trig: Trig, tape: Tape, r: Rail, e: Event)
    requires tape.Sound() && InSync(trig, tape, r) && Enabled(r, e) && Quiet(r, e)
    ensures InSync(trig, tape, Next(trig, tape, r, e))
    ensures SameSound(r.deck, Next(trig, tape, r, e).deck)
  {
    hide DeckSlice;
    var r' := Next(trig, tape, r, e);
    if e.Publish? && Horizon(r.deck, tape.xfade, r.pc.cursor) <= r.pc.cursor {
      assert r'.window == r.window;
    }
  }

  lemma {:induction false} RunKeepsSync(trig: Trig, tape: Tape, r: Rail, run: seq<Event>)
    requires tape.Sound() && InSync(trig, tape, r) && QuietRun(trig, tape, r, run)
    ensures InSync(trig, tape, After(trig, tape, r, run))
    ensures SameSound(r.deck, After(trig, tape, r, run).deck)
    decreases |run|
  {
    hide InSync;
    if run == [] {
    } else {
      StepKeepsSync(trig, tape, r, run[0]);
      RunKeepsSync(trig, tape, Next(trig, tape, r, run[0]), run[1..]);
    }
  }

  /** What a window in step with the deck gives at one frame. */
  lemma SyncedFrame(trig: Trig, tape: Tape, r: Rail, f: nat, c: nat)
    requires tape.Sound() && InSync(trig, tape, r) && c < tape.C()
    ensures r.window.At(tape.C(), f * tape.C() + c)
            == if InWindow(tape, r, f) then DeckSample(trig, tape, r.deck, f, c) else 0.0
  {
    var C, base := tape.C(), r.window.base;
    var end := Horizon(r.deck, tape.xfade, base);
    Distribute(f, base, C);
    Distribute(end, base, C);
    if base <= f < end {
      FrameInside(f - base, c, end - base, C);
      QuotientUnique((f - base) * C + c, C, f - base, c);
    } else if f < base {
      ScaleMono(f + 1, base, C);
      Distribute(f, 1, C);
    } else {
      ScaleMono(end, f, C);
    }
  }

  /** The frames a window in step with the deck has. */
  predicate InWindow(tape: Tape, r: Rail, f: nat) {
    r.window.base >= 0 && r.window.base <= f < Horizon(r.deck, tape.xfade, r.window.base)
  }

  /** Sample by sample, what a read hears of a window in step with the deck. */
  lemma SyncedSample(trig: Trig, tape: Tape, r: Rail, k: nat)
    requires tape.Sound() && InSync(trig, tape, r) && r.reading.Mid? && k < r.reading.frames * tape.C()
    ensures r.reading.start >= 0 && 0 <= k / tape.C() < r.reading.frames
    ensures var f, c := r.reading.start + k / tape.C(), k % tape.C();
            Heard(tape, r, Hear)[k] == if InWindow(tape, r, f) then DeckSample(trig, tape, r.deck, f, c) else 0.0
  {
    hide DeckSample, DeckSlice;
    ReadIndex(r.reading.start, r.reading.frames, k, tape.C());
    SyncedFrame(trig, tape, r, r.reading.start + k / tape.C(), k % tape.C());
  }

  lemma ReadIndex(start: nat, frames: nat, k: nat, channels: nat)
    requires channels > 0 && k < frames * channels
    ensures start * channels + k == (start + k / channels) * channels + k % channels
    ensures 0 <= k / channels < frames
  {
    FrameOf(k, frames, channels);
  }

  // ---- which reads have no hole ------------------------------------------------------------

  /** A read hears exactly the deck when, and only when, every frame of it the window does not
      have is one the deck is silent in. */
  lemma ReadIsDeckIff(trig: Trig, tape: Tape, r: Rail)
    requires tape.Sound() && InSync(trig, tape, r) && r.reading.Mid?
    ensures r.reading.start >= 0
    ensures Heard(tape, r, Hear) == DeckSlice(trig, tape, r.deck, r.reading.start, r.reading.frames)
            <==> forall f: nat, c: nat | r.reading.start <= f < r.reading.start + r.reading.frames && c < tape.C() && !InWindow(tape, r, f) ::
                   DeckSample(trig, tape, r.deck, f, c) == 0.0
  {
    var start, n, C := r.reading.start, r.reading.frames, tape.C();
    var heard, deck := Heard(tape, r, Hear), DeckSlice(trig, tape, r.deck, start, n);
    hide InSync, InWindow, DeckSample;
    if heard == deck {
      forall f: nat, c: nat | start <= f < start + n && c < C && !InWindow(tape, r, f)
        ensures DeckSample(trig, tape, r.deck, f, c) == 0.0
      {
        var k := (f - start) * C + c;
        FrameInside(f - start, c, n, C);
        QuotientUnique(k, C, f - start, c);
        SyncedSample(trig, tape, r, k);
        assert heard[k] == deck[k];
      }
    }
    if forall f: nat, c: nat | start <= f < start + n && c < C && !InWindow(tape, r, f) :: DeckSample(trig, tape, r.deck, f, c) == 0.0 {
      forall k | 0 <= k < |heard|
        ensures heard[k] == deck[k]
      {
        SyncedSample(trig, tape, r, k);
      }
    }
  }

  /** The window has every frame of the read that the deck plays: it starts no later than the
      read, and reaches past it or to the end of the exit. */
  predicate Covered(tape: Tape, r: Rail)
    requires r.reading.Mid?
  {
    r.window.base <= r.reading.start && Paced(tape, r)
  }

  /** The read stays within the lead of the window's base, or the exit is published in full. */
  predicate Paced(tape: Tape, r: Rail)
    requires r.reading.Mid?
  {
    || r.reading.start + r.reading.frames <= r.window.base + LEAD
    || (r.deck.state.Exiting? && r.deck.state.exitSeam + tape.xfade <= r.window.base + LEAD)
  }

  /** A read within the lead, of a loop that sounds at its first frame, has no hole exactly when
      the window it loads does not start after it. */
  lemma PacedReadIsDeckIff(trig: Trig, tape: Tape, r: Rail, c: nat)
    requires tape.Sound() && InSync(trig, tape, r) && r.reading.Mid? && r.reading.frames > 0 && Paced(tape, r)
    requires c < tape.C() && 0 <= r.reading.start && DeckSample(trig, tape, r.deck, r.reading.start, c) != 0.0
    ensures Heard(tape, r, Hear) == DeckSlice(trig, tape, r.deck, r.reading.start, r.reading.frames)
            <==> r.window.base <= r.reading.start
  {
    ReadIsDeckIff(trig, tape, r);
    if r.window.base <= r.reading.start {
      CoveredReadIsDeck(trig, tape, r);
    }
  }

  lemma CoveredReadIsDeck(trig: Trig, tape: Tape, r: Rail)
    requires tape.Sound() && InSync(trig, tape, r) && r.reading.Mid? && Covered(tape, r)
    ensures r.reading.start >= 0
    ensures Heard(tape, r, Hear) == DeckSlice(trig, tape, r.deck, r.reading.start, r.reading.frames)
  {
    ReadIsDeckIff(trig, tape, r);
    hide DeckSlice;
  }

  /** The fill loop can land inside a read: it loads the cursor the read has already moved,
      republishes from there, and the whole read is silence, though the loop is vamping. */
  lemma FillInsideAReadIsHeard(trig: Trig, tape: Tape, r: Rail, n: nat)
    requires tape.Sound() && InSync(trig, tape, r) && r.pc.Sampled? && r.reading.Rest? && r.deck.state.Vamping?
    ensures var mid := Steps(trig, tape, r, [Advance(n), Load(r.reader + n), Publish]);
            && mid.Some? && InSync(trig, tape, mid.value)
            && mid.value.reading == Mid(r.reader, n) && Paced(tape, mid.value)
            && n * tape.C() >= 0 && Heard(tape, mid.value, Hear) == Zeros(n * tape.C())
  {
    var run := [Advance(n), Load(r.reader + n), Publish];
    var advanced := Next(trig, tape, r, run[0]);
    var loaded := Next(trig, tape, advanced, run[1]);
    var mid := Next(trig, tape, loaded, Publish);
    Unroll(trig, tape, r, run);
    Unroll(trig, tape, advanced, run[1..]);
    Unroll(trig, tape, loaded, run[2..]);
    SyncIsOrderly(trig, tape, r);
    StepKeepsSync(trig, tape, r, run[0]);
    StepKeepsSync(trig, tape, advanced, run[1]);
    StepKeepsSync(trig, tape, loaded, Publish);
    assert run[1..][1..] == run[2..] && Steps(trig, tape, r, run) == Some(mid);
    assert mid.window.base == r.reader + n && Paced(tape, mid);
    hide InSync, DeckSlice, DeckSample;
    WholeFrames(n, tape.C());
    forall k | 0 <= k < n * tape.C()
      ensures Heard(tape, mid, Hear)[k] == 0.0
    {
      SyncedSample(trig, tape, mid, k);
      assert !InWindow(tape, mid, r.reader + k / tape.C());
    }
  }

  // ---- over every interleaving -------------------------------------------------------------

  /** From the publish on, over every interleaving that observes no new control: each sample
      the bus hears is the deck's or silence, is silence from the settle frame on, and is the
      deck's own in a covered read. */
  lemma LaterReadsObeyTheExit(trig: Trig, tape: Tape, r: Rail, run: seq<Event>, k: nat)
    requires tape.Sound() && InSync(trig, tape, r) && QuietRun(trig, tape, r, run)
    requires var now := After(trig, tape, r, run); now.reading.Mid? && k < now.reading.frames * tape.C()
    ensures var now := After(trig, tape, r, run);
            var f, c := now.reading.start + k / tape.C(), k % tape.C();
            f >= 0 &&
            var heard, deck := Heard(tape, now, Hear)[k], DeckSample(trig, tape, r.deck, f, c);
            && (heard == deck || heard == 0.0)
            && (r.deck.state.Exiting? && f >= r.deck.state.exitSeam + tape.xfade ==> heard == 0.0)
            && (Covered(tape, now) ==> heard == deck)
  {
    var now := After(trig, tape, r, run);
    RunKeepsSync(trig, tape, r, run);
    SyncedSample(trig, tape, now, k);
    hide InSync, DeckSlice;
    SameSample(trig, tape, r.deck, now.deck, now.reading.start + k / tape.C(), k % tape.C());
  }

  lemma SameSample(trig: Trig, tape: Tape, t: Transport, u: Transport, f: nat, c: nat)
    requires tape.Sound() && c < tape.C() && SameSound(t, u)
    ensures DeckSample(trig, tape, t, f, c) == DeckSample(trig, tape, u, f, c)
  {}

  /** The exit boundary: once the fill loop has followed an arm and publishes with the settle
      frame still ahead of the cursor it loaded, no later read, however it interleaves with
      further fills, hears anything at or past that frame until a new control is observed. */
  lemma ExitBoundaryIsKept(trig: Trig, tape: Tape, r: Rail, run: seq<Event>, k: nat)
    requires tape.Sound() && Orderly(r) && r.pc.Loaded?
    requires r.deck.state.Exiting? && r.pc.cursor < r.deck.state.exitSeam + tape.xfade
    requires QuietRun(trig, tape, Next(trig, tape, r, Publish), run)
    requires var now := After(trig, tape, Next(trig, tape, r, Publish), run);
             now.reading.Mid? && k < now.reading.frames * tape.C()
    ensures var now := After(trig, tape, Next(trig, tape, r, Publish), run);
            var f, c := now.reading.start + k / tape.C(), k % tape.C();
            f >= 0 &&
            var heard, deck := Heard(tape, now, Hear)[k], DeckSample(trig, tape, r.deck, f, c);
            && (f >= r.deck.state.exitSeam + tape.xfade ==> heard == 0.0)
            && (heard == deck || heard == 0.0)
            && (Covered(tape, now) ==> heard == deck)
  {
    hide InSync, Covered;
    PublishSyncs(trig, tape, r);
    var next := Next(trig, tape, r, Publish);
    LaterReadsObeyTheExit(trig, tape, next, run, k);
    var now := After(trig, tape, next, run);
    SameSample(trig, tape, r.deck, next.deck, now.reading.start + k / tape.C(), k % tape.C());
  }

  // ---- a paced reader hears the deck without a hole ------------------------------------------

  /** No read past the lead, and no fill that loads the cursor of a read still under way. */
  ghost predicate PacedRun(trig: Trig, tape: Tape, r: Rail, run: seq<Event>)
    requires tape.Sound() && QuietRun(trig, tape, r, run)
    decreases |run|
  {
    run != [] ==>
      && (run[0].Hear? ==> Paced(tape, r))
      && (run[0].Load? ==> run[0].cursor <= Frontier(r))
      && PacedRun(trig, tape, Next(trig, tape, r, run[0]), run[1..])
  }

  function HeardOver(trig: Trig, tape: Tape, r: Rail, run: seq<Event>): seq<real>
    requires tape.Sound() && QuietRun(trig, tape, r, run)
    decreases |run|
  {
    if run == [] then [] else Heard(tape, r, run[0]) + HeardOver(trig, tape, Next(trig, tape, r, run[0]), run[1..])
  }

  /** However fills and reads interleave, as long as no fill loads the cursor of a read still
      under way, a reader that advances at most the lead between publishes hears one gap-free
      slice of the deck. */
  lemma {:induction false} PacedReaderHearsTheDeck(trig: Trig, tape: Tape, r: Rail, run: seq<Event>)
    requires tape.Sound() && InSync(trig, tape, r) && r.seen <= Frontier(r)
    requires QuietRun(trig, tape, r, run) && PacedRun(trig, tape, r, run)
    ensures Frontier(After(trig, tape, r, run)) >= Frontier(r) >= 0
    ensures HeardOver(trig, tape, r, run)
            == DeckSlice(trig, tape, r.deck, Frontier(r), Frontier(After(trig, tape, r, run)) - Frontier(r))
    decreases |run|
  {
    SyncIsOrderly(trig, tape, r);
    hide DeckSlice, InSync, Orderly, Paced;
    if run == [] {
      assert 0 * tape.C() == 0;
    } else {
      var next := Next(trig, tape, r, run[0]);
      StepKeepsSync(trig, tape, r, run[0]);
      StepKeepsOrder(trig, tape, r, run[0]);
      PacedReaderHearsTheDeck(trig, tape, next, run[1..]);
      var frames := Frontier(After(trig, tape, next, run[1..])) - Frontier(next);
      if run[0].Hear? {
        HeardInOrder(trig, tape, r);
        SlicesJoin(trig, tape, r.deck, next.deck, Frontier(r), r.reading.frames, frames);
      } else {
        SameSlice(trig, tape, r.deck, next.deck, Frontier(r), frames);
      }
    }
  }

  lemma SyncIsOrderly(trig: Trig, tape: Tape, r: Rail)
    requires tape.Sound() && InSync(trig, tape, r)
    ensures Orderly(r) && 0 <= Frontier(r)
    ensures r.reading.Rest? ==> r.seen <= Frontier(r)
  {}

  lemma HeardInOrder(trig: Trig, tape: Tape, r: Rail)
    requires tape.Sound() && InSync(trig, tape, r) && r.reading.Mid? && r.seen <= Frontier(r) && Paced(tape, r)
    ensures Frontier(r) >= 0 && Frontier(Next(trig, tape, r, Hear)) == Frontier(r) + r.reading.frames
    ensures Heard(tape, r, Hear) == DeckSlice(trig, tape, r.deck, Frontier(r), r.reading.frames)
  {
    CoveredReadIsDeck(trig, tape, r);
    hide DeckSlice;
  }

  // ---- reachable inputs -------------------------------------------------------------------------

  const ONES: Tape := Tape(AudioFormat(SAMPLE_RATE, Mono), [1.0], [], 1, 0)
  const BOOT: Rail := Rail(PlayerControl(0, AudioTransport.Vamping, None), 1, 0, Transport(DeckState.Vamping(false), 0, 0, false),
                           RingSnapshot(0, []), 0, Rest, 0, Top)

  function Steps(trig: Trig, tape: Tape, r: Rail, run: seq<Event>): Option<Rail>
    requires tape.Sound()
    decreases |run|
  {
    if run == [] then Some(r)
    else if !Enabled(r, run[0]) then None
    else Steps(trig, tape, Next(trig, tape, r, run[0]), run[1..])
  }

  lemma Unroll(trig: Trig, tape: Tape, r: Rail, run: seq<Event>)
    requires tape.Sound() && run != [] && Enabled(r, run[0])
    ensures Steps(trig, tape, r, run) == Steps(trig, tape, Next(trig, tape, r, run[0]), run[1..])
    ensures |run| == 1 ==> Steps(trig, tape, r, run) == Some(Next(trig, tape, r, run[0]))
  {}

  lemma {:induction false} StepsJoin(trig: Trig, tape: Tape, r: Rail, first: seq<Event>, rest: seq<Event>)
    requires tape.Sound() && Steps(trig, tape, r, first).Some?
    ensures Steps(trig, tape, r, first + rest) == Steps(trig, tape, Steps(trig, tape, r, first).value, rest)
    decreases |first|
  {
    if first == [] {
      assert first + rest == rest;
    } else {
      assert (first + rest)[0] == first[0] && (first + rest)[1..] == first[1..] + rest;
      StepsJoin(trig, tape, Next(trig, tape, r, first[0]), first[1..], rest);
    }
  }

  /** One whole pass of the fill loop. */
  function Pass(cursor: nat): seq<Event> {
    [Follow, Load(cursor), Publish]
  }

  const ARM: Event := Post(AudioTransport.Vamping, Some(0))

  lemma PassSteps(trig: Trig, tape: Tape, r: Rail, cursor: nat)
    requires tape.Sound() && r.pc.Top? && r.seen <= cursor <= Max(r.reader, 0)
    ensures Steps(trig, tape, r, Pass(cursor))
            == Some(Next(trig, tape, Next(trig, tape, Next(trig, tape, r, Follow), Load(cursor)), Publish))
  {
    var run := Pass(cursor);
    var followed := Next(trig, tape, r, Follow);
    Unroll(trig, tape, r, run);
    Unroll(trig, tape, followed, run[1..]);
    Unroll(trig, tape, Next(trig, tape, followed, Load(cursor)), run[2..]);
  }

  /** After one pass over a loop of ones, half a second of it is published. */
  lemma OnesPlay(trig: Trig) returns (r: Rail)
    ensures ONES.Sound() && Steps(trig, ONES, BOOT, Pass(0)) == Some(r)
    ensures InSync(trig, ONES, r) && SameSound(r.deck, BOOT.deck) && !r.deck.recue
    ensures r == BOOT.(window := r.window, deck := r.deck)
    ensures r.window.base == 0 && |r.window.samples| == LEAD && forall k | 0 <= k < LEAD :: r.window.samples[k] == 1.0
  {
    PassSteps(trig, ONES, BOOT, 0);
    r := Steps(trig, ONES, BOOT, Pass(0)).value;
  }

  /** A hole inside a paced read: the first ten frames of the loop of ones are silence. */
  lemma PacedReadHasAHole(trig: Trig)
    ensures ONES.Sound()
    ensures var mid := Steps(trig, ONES, BOOT, Pass(0) + [Follow] + [Advance(10), Load(10), Publish]);
            && mid.Some? && mid.value.reading == Mid(0, 10) && Paced(ONES, mid.value)
            && Heard(ONES, mid.value, Hear) == Zeros(10)
            && forall k | 0 <= k < 10 :: DeckSample(trig, ONES, mid.value.deck, k, 0) == 1.0
  {
    var r := OnesPlay(trig);
    var fill := [Advance(10), Load(10), Publish];
    assert Pass(0) + [Follow] + fill == Pass(0) + ([Follow] + fill);
    StepsJoin(trig, ONES, BOOT, Pass(0), [Follow] + fill);
    Unroll(trig, ONES, r, [Follow]);
    StepsJoin(trig, ONES, r, [Follow], fill);
    var followed := Next(trig, ONES, r, Follow);
    StepKeepsSync(trig, ONES, r, Follow);
    FillInsideAReadIsHeard(trig, ONES, followed, 10);
    var mid := Steps(trig, ONES, followed, fill).value;
    FillKeepsSound(trig, ONES, followed, 10);
    forall k | 0 <= k < 10
      ensures DeckSample(trig, ONES, mid.deck, k, 0) == 1.0
    {
      SameSample(trig, ONES, BOOT.deck, mid.deck, k, 0);
    }
  }

  lemma FillKeepsSound(trig: Trig, tape: Tape, r: Rail, n: nat)
    requires tape.Sound() && InSync(trig, tape, r) && r.pc.Sampled? && r.reading.Rest?
    ensures var mid := Steps(trig, tape, r, [Advance(n), Load(r.reader + n), Publish]);
            mid.Some? && SameSound(r.deck, mid.value.deck)
  {
    var run := [Advance(n), Load(r.reader + n), Publish];
    var advanced := Next(trig, tape, r, run[0]);
    Unroll(trig, tape, r, run);
    Unroll(trig, tape, advanced, run[1..]);
    Unroll(trig, tape, Next(trig, tape, advanced, run[1]), run[2..]);
    StepKeepsSync(trig, tape, r, run[0]);
    StepKeepsSync(trig, tape, advanced, run[1]);
    StepKeepsSync(trig, tape, Next(trig, tape, advanced, run[1]), Publish);
  }

  // ---- no post is missed -------------------------------------------------------------------------

  /** Generations only grow, so the fill loop's equality test tells new from applied. */
  predicate Stamped(r: Rail) {
    r.lastGen <= r.bus.generation < r.nextGen
  }

  function LastPost(run: seq<Event>): (p: Option<Event>)
    ensures p.Some? ==> p.value.Post?
  {
    if run == [] then None
    else if run[|run| - 1].Post? then Some(run[|run| - 1]) else LastPost(run[..|run| - 1])
  }

  /** Posts coalesce but the last is never lost: the next follow applies it exactly. */
  lemma {:induction false} LastPostIsApplied(trig: Trig, tape: Tape, r: Rail, run: seq<Event>, later: Rail)
    requires tape.Sound() && Stamped(r) && Steps(trig, tape, r, run) == Some(later)
    requires forall i | 0 <= i < |run| :: !run[i].Follow?
    ensures Stamped(later) && later.lastGen == r.lastGen
    ensures match LastPost(run)
            case None => later.bus == r.bus
            case Some(p) =>
              && later.bus.generation != later.lastGen
              && Followed(later.deck, tape.loopFrames, later.lastGen, later.bus)
                 == Apply(later.deck, tape.loopFrames, p.state, p.anchor)
    decreases |run|
  {
    if run == [] {
    } else {
      var last := |run| - 1;
      var before := SplitLast(trig, tape, r, run, later);
      LastPostIsApplied(trig, tape, r, run[..last], before);
    }
  }

  lemma {:induction false} SplitLast(trig: Trig, tape: Tape, r: Rail, run: seq<Event>, later: Rail) returns (before: Rail)
    requires tape.Sound() && run != [] && Steps(trig, tape, r, run) == Some(later)
    ensures Steps(trig, tape, r, run[..|run| - 1]) == Some(before)
    ensures Enabled(before, run[|run| - 1]) && later == Next(trig, tape, before, run[|run| - 1])
    decreases |run|
  {
    if |run| == 1 {
      before := r;
    } else {
      before := SplitLast(trig, tape, Next(trig, tape, r, run[0]), run[1..], later);
      assert run[1..][..|run| - 2] == run[..|run| - 1][1..];
    }
  }
}
