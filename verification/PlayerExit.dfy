/** The armed exit on a player's audio rail: exactly when nothing past its boundary is heard. */
module PlayerExit {
  import opened Audio
  import opened Mixer
  import opened LoopDeck
  import opened DeckBuild
  import opened Store
  import opened PlayerAudio
  import opened PlayerRail

  // ---- one top-up ----------------------------------------------------------------------------

  predicate WholeWindow(tape: Tape, w: RingSnapshot) {
    |w.samples| % tape.C() == 0
  }

  /** One whole frame of full scale at `f`. */
  function Spike(tape: Tape, f: int): (w: RingSnapshot)
    ensures WholeWindow(tape, w)
  {
    RingSnapshot(f, seq(tape.C(), _ => 1.0))
  }

  lemma SpikeSounds(tape: Tape, f: int)
    ensures Spike(tape, f).At(tape.C(), f * tape.C()) == 1.0
  {}

  /** The frames a top-up at `c` over window `w` is meant to cover: the whole lead, and all
      that follows a settled exit. */
  ghost predicate SoundsLikeDeck(trig: Trig, tape: Tape, t: Transport, w: RingSnapshot, c: nat)
    requires tape.Sound() && t.state.Exiting?
  {
    var (deck, window) := Refill(trig, tape, t, w, c);
    forall f: nat, ch: nat | ch < tape.C() && c <= f && (f < c + LEAD || t.state.exitSeam + tape.xfade <= c + LEAD) ::
      window.At(tape.C(), f * tape.C() + ch) == DeckSample(trig, tape, deck, f, ch)
  }

  /** One top-up by itself: over every window a store may have held, it leaves from its cursor on
      what the exiting deck plays exactly when the settle frame is still ahead of that cursor. */
  lemma ExitNeedsSettleAhead(trig: Trig, tape: Tape, t: Transport, c: nat)
    requires tape.Sound() && t.state.Exiting?
    ensures (forall w: RingSnapshot | WholeWindow(tape, w) :: SoundsLikeDeck(trig, tape, t, w, c))
            <==> c < t.state.exitSeam + tape.xfade
  {
    if c >= t.state.exitSeam + tape.xfade {
      var stale := Spike(tape, c);
      SpikeSounds(tape, c);
      assert stale.At(tape.C(), c * tape.C() + 0) == 1.0;
      assert DeckSample(trig, tape, t, c, 0) == 0.0;
      assert Refill(trig, tape, t, stale, c) == (t, stale);
      assert !SoundsLikeDeck(trig, tape, t, stale, c) by {
        assert stale.At(tape.C(), c * tape.C() + 0) != DeckSample(trig, tape, Refill(trig, tape, t, stale, c).0, c, 0);
      }
    } else {
      forall w: RingSnapshot | WholeWindow(tape, w)
        ensures SoundsLikeDeck(trig, tape, t, w, c)
      {
        RefillSoundsLikeDeck(trig, tape, t, w, c);
      }
    }
  }

  lemma RefillSoundsLikeDeck(trig: Trig, tape: Tape, t: Transport, w: RingSnapshot, c: nat)
    requires tape.Sound() && t.state.Exiting? && c < t.state.exitSeam + tape.xfade
    ensures SoundsLikeDeck(trig, tape, t, w, c)
  {
    hide InSync, DeckSlice, DeckSample;
    var r := Rail(PlayerControl(0, AudioTransport.Vamping, None), 1, 0, t, w, c, Rest, c, Loaded(c));
    PublishSyncs(trig, tape, r);
    var next := Next(trig, tape, r, Publish);
    forall f: nat, ch: nat | ch < tape.C() && c <= f && (f < c + LEAD || t.state.exitSeam + tape.xfade <= c + LEAD)
      ensures next.window.At(tape.C(), f * tape.C() + ch) == DeckSample(trig, tape, next.deck, f, ch)
    {
      SyncedFrame(trig, tape, next, f, ch);
      SettledIsSilent(trig, tape, next.deck, f, ch);
    }
  }

  lemma SettledIsSilent(trig: Trig, tape: Tape, t: Transport, f: nat, c: nat)
    requires tape.Sound() && t.state.Exiting? && c < tape.C()
    ensures f >= t.state.exitSeam + tape.xfade ==> DeckSample(trig, tape, t, f, c) == 0.0
  {}

  // ---- exactly when an exit is kept ------------------------------------------------------------

  /** Nothing at or past frame `settle` is heard in this step. */
  predicate SilentStep(tape: Tape, r: Rail, e: Event, settle: int) {
    e.Hear? && r.reading.Mid? ==>
      forall k | 0 <= k < r.reading.frames * tape.C() && r.reading.start + k / tape.C() >= settle ::
        r.window.At(tape.C(), r.reading.start * tape.C() + k) == 0.0
  }

  /** Nor over a run, as long as it observes no new control. */
  ghost predicate SilentPast(trig: Trig, tape: Tape, r: Rail, run: seq<Event>, settle: int)
    requires tape.Sound()
    decreases |run|
  {
    run != [] && Enabled(r, run[0]) && Quiet(r, run[0]) ==>
      SilentStep(tape, r, run[0], settle) && SilentPast(trig, tape, Next(trig, tape, r, run[0]), run[1..], settle)
  }

  lemma {:induction false} SyncedIsSilentPast(trig: Trig, tape: Tape, r: Rail, run: seq<Event>)
    requires tape.Sound() && InSync(trig, tape, r) && r.deck.state.Exiting?
    ensures SilentPast(trig, tape, r, run, r.deck.state.exitSeam + tape.xfade)
    decreases |run|
  {
    hide InSync, DeckSlice, DeckSample;
    if run == [] || !Enabled(r, run[0]) || !Quiet(r, run[0]) {
    } else {
      SyncedStepIsSilent(trig, tape, r, run[0]);
      StepKeepsSync(trig, tape, r, run[0]);
      SyncedIsSilentPast(trig, tape, Next(trig, tape, r, run[0]), run[1..]);
    }
  }

  lemma SyncedStepIsSilent(trig: Trig, tape: Tape, r: Rail, e: Event)
    requires tape.Sound() && InSync(trig, tape, r) && r.deck.state.Exiting?
    ensures SilentStep(tape, r, e, r.deck.state.exitSeam + tape.xfade)
  {
    hide DeckSlice, DeckSample;
    if e.Hear? && r.reading.Mid? {
      forall k | 0 <= k < r.reading.frames * tape.C() && r.reading.start + k / tape.C() >= r.deck.state.exitSeam + tape.xfade
        ensures r.window.At(tape.C(), r.reading.start * tape.C() + k) == 0.0
      {
        ReadIndex(r.reading.start, r.reading.frames, k, tape.C());
        SyncedFrame(trig, tape, r, r.reading.start + k / tape.C(), k % tape.C());
      }
    }
  }

  ghost predicate NoPublish(run: seq<Event>) {
    forall i | 0 <= i < |run| :: !run[i].Publish?
  }

  /** Until a swap the window, whatever it is, decides nothing and is not replaced. */
  lemma {:induction false} WindowIsFree(trig: Trig, tape: Tape, r: Rail, run: seq<Event>, w: RingSnapshot)
    requires tape.Sound() && QuietRun(trig, tape, r, run) && NoPublish(run)
    ensures QuietRun(trig, tape, r.(window := w), run)
    ensures After(trig, tape, r.(window := w), run) == After(trig, tape, r, run).(window := w)
    decreases |run|
  {
    if run == [] {
    } else {
      assert !run[0].Publish?;
      WindowIsFree(trig, tape, Next(trig, tape, r, run[0]), run[1..], w);
    }
  }

  lemma {:induction false} RunKeepsOrder(trig: Trig, tape: Tape, r: Rail, run: seq<Event>)
    requires tape.Sound() && Orderly(r) && QuietRun(trig, tape, r, run)
    ensures Orderly(After(trig, tape, r, run)) && Frontier(After(trig, tape, r, run)) >= Frontier(r)
    decreases |run|
  {
    if run == [] {
    } else {
      StepKeepsOrder(trig, tape, r, run[0]);
      RunKeepsOrder(trig, tape, Next(trig, tape, r, run[0]), run[1..]);
    }
  }

  /** Reads that end at or before the frame hear nothing past it, whatever the window holds. */
  lemma {:induction false} ShortReadsAreSilent(trig: Trig, tape: Tape, r: Rail, run: seq<Event>, rest: seq<Event>, settle: int)
    requires tape.Sound() && Orderly(r) && QuietRun(trig, tape, r, run)
    requires Frontier(After(trig, tape, r, run)) <= settle
    requires SilentPast(trig, tape, After(trig, tape, r, run), rest, settle)
    ensures SilentPast(trig, tape, r, run + rest, settle)
    decreases |run|
  {
    if run == [] {
      assert run + rest == rest;
    } else {
      var next := Next(trig, tape, r, run[0]);
      StepKeepsOrder(trig, tape, r, run[0]);
      RunKeepsOrder(trig, tape, next, run[1..]);
      assert (run + rest)[0] == run[0] && (run + rest)[1..] == run[1..] + rest;
      hide SilentStep;
      ShortReadsAreSilent(trig, tape, next, run[1..], rest, settle);
      ShortReadIsSilent(trig, tape, r, run[0], settle);
    }
  }

  lemma ShortReadIsSilent(trig: Trig, tape: Tape, r: Rail, e: Event, settle: int)
    requires tape.Sound() && Orderly(r) && Enabled(r, e) && Frontier(Next(trig, tape, r, e)) <= settle
    ensures SilentStep(tape, r, e, settle)
  {
    if e.Hear? {
      forall k | 0 <= k < r.reading.frames * tape.C()
        ensures r.reading.start + k / tape.C() < settle
      {
        FrameOf(k, r.reading.frames, tape.C());
      }
    }
  }

  /** A read across the frame hears what the window holds there. */
  lemma {:induction false} CrossingIsHeard(trig: Trig, tape: Tape, r: Rail, run: seq<Event>, rest: seq<Event>, settle: int)
    requires tape.Sound() && Orderly(r) && QuietRun(trig, tape, r, run) && NoPublish(run)
    requires r.window == Spike(tape, settle)
    requires Frontier(r) <= settle < Frontier(After(trig, tape, r, run))
    ensures !SilentPast(trig, tape, r, run + rest, settle)
    decreases |run|
  {
    var next := Next(trig, tape, r, run[0]);
    StepKeepsOrder(trig, tape, r, run[0]);
    assert (run + rest)[0] == run[0] && (run + rest)[1..] == run[1..] + rest;
    assert !run[0].Publish?;
    if Frontier(next) <= settle {
      hide SilentStep;
      CrossingIsHeard(trig, tape, next, run[1..], rest, settle);
    } else {
      CrossingReadSounds(tape, r, settle);
    }
  }

  lemma CrossingReadSounds(tape: Tape, r: Rail, settle: int)
    requires Orderly(r) && r.reading.Mid? && r.window == Spike(tape, settle) && r.reading.start <= settle < r.reader
    ensures !SilentStep(tape, r, Hear, settle)
  {
    var C := tape.C();
    var k := (settle - r.reading.start) * C;
    FrameInside(settle - r.reading.start, 0, r.reading.frames, C);
    QuotientUnique(k, C, settle - r.reading.start, 0);
    Distribute(settle, r.reading.start, C);
    SpikeSounds(tape, settle);
    assert r.window.At(C, r.reading.start * C + k) == 1.0;
  }

  lemma {:induction false} SilentFromThere(trig: Trig, tape: Tape, r: Rail, run: seq<Event>, rest: seq<Event>, settle: int)
    requires tape.Sound() && QuietRun(trig, tape, r, run) && SilentPast(trig, tape, r, run + rest, settle)
    ensures SilentPast(trig, tape, After(trig, tape, r, run), rest, settle)
    decreases |run|
  {
    if run == [] {
      assert run + rest == rest;
    } else {
      assert (run + rest)[0] == run[0] && (run + rest)[1..] == run[1..] + rest;
      SilentFromThere(trig, tape, Next(trig, tape, r, run[0]), run[1..], rest, settle);
    }
  }

  /** No window the store may hold, and nothing that follows the swap, lets a sample at or past
      the settle frame be heard. */
  ghost predicate ExitIsKept(trig: Trig, tape: Tape, r: Rail, before: seq<Event>, settle: int)
    requires tape.Sound()
  {
    forall w: RingSnapshot, after: seq<Event> | WholeWindow(tape, w) ::
      SilentPast(trig, tape, r.(window := w), before + [Publish] + after, settle)
  }

  /** From the moment an arm is followed, with nothing at or past its settle frame heard yet, up
      to the next swap and on through everything after it: nothing at or past that frame is ever
      heard exactly when the cursor loaded for the swap is behind it, and so is everything heard
      by the time the swap lands. */
  lemma ExitIsKeptIff(trig: Trig, tape: Tape, r: Rail, before: seq<Event>)
    requires tape.Sound() && Orderly(r) && r.deck.state.Exiting?
    requires Frontier(r) <= r.deck.state.exitSeam + tape.xfade
    requires QuietRun(trig, tape, r, before) && NoPublish(before) && After(trig, tape, r, before).pc.Loaded?
    ensures var settle, swap := r.deck.state.exitSeam + tape.xfade, After(trig, tape, r, before);
            ExitIsKept(trig, tape, r, before, settle) <==> swap.pc.cursor < settle && Frontier(swap) <= settle
  {
    var settle, swap := r.deck.state.exitSeam + tape.xfade, After(trig, tape, r, before);
    RunKeepsOrder(trig, tape, r, before);
    QuietKeepsDeck(trig, tape, r, before);
    hide SilentStep;
    if swap.pc.cursor < settle && Frontier(swap) <= settle {
      forall w: RingSnapshot, after: seq<Event> | WholeWindow(tape, w)
        ensures SilentPast(trig, tape, r.(window := w), before + [Publish] + after, settle)
      {
        KeptOver(trig, tape, r, before, w, after);
      }
    } else {
      var w := Spike(tape, settle);
      WindowIsFree(trig, tape, r, before, w);
      if Frontier(swap) > settle {
        CrossingIsHeard(trig, tape, r.(window := w), before, [Publish] + [], settle);
        assert before + [Publish] + [] == before + ([Publish] + []);
        assert !SilentPast(trig, tape, r.(window := w), before + [Publish] + [], settle);
      } else {
        var after := LateSwapIsHeard(trig, tape, swap.(window := w), settle);
        if SilentPast(trig, tape, r.(window := w), before + [Publish] + after, settle) {
          assert before + [Publish] + after == before + ([Publish] + after);
          SilentFromThere(trig, tape, r.(window := w), before, [Publish] + after, settle);
          assert false;
        }
      }
    }
  }

  lemma {:induction false} QuietKeepsDeck(trig: Trig, tape: Tape, r: Rail, run: seq<Event>)
    requires tape.Sound() && QuietRun(trig, tape, r, run) && NoPublish(run)
    ensures After(trig, tape, r, run).deck == r.deck
    decreases |run|
  {
    if run == [] {
    } else {
      assert !run[0].Publish?;
      QuietKeepsDeck(trig, tape, Next(trig, tape, r, run[0]), run[1..]);
    }
  }

  lemma KeptOver(trig: Trig, tape: Tape, r: Rail, before: seq<Event>, w: RingSnapshot, after: seq<Event>)
    requires tape.Sound() && Orderly(r) && r.deck.state.Exiting?
    requires QuietRun(trig, tape, r, before) && NoPublish(before)
    requires var settle, swap := r.deck.state.exitSeam + tape.xfade, After(trig, tape, r, before);
             swap.pc.Loaded? && swap.pc.cursor < settle && Frontier(swap) <= settle
    ensures SilentPast(trig, tape, r.(window := w), before + [Publish] + after, r.deck.state.exitSeam + tape.xfade)
  {
    var settle, swap := r.deck.state.exitSeam + tape.xfade, After(trig, tape, r, before).(window := w);
    WindowIsFree(trig, tape, r, before, w);
    RunKeepsOrder(trig, tape, r, before);
    QuietKeepsDeck(trig, tape, r, before);
    PublishSyncs(trig, tape, swap);
    var next := Next(trig, tape, swap, Publish);
    SyncedIsSilentPast(trig, tape, next, after);
    hide InSync, SilentStep, DeckSlice;
    PublishIsSilent(trig, tape, swap, after, settle);
    ShortReadsAreSilent(trig, tape, r.(window := w), before, [Publish] + after, settle);
    assert before + [Publish] + after == before + ([Publish] + after);
  }

  lemma PublishIsSilent(trig: Trig, tape: Tape, r: Rail, after: seq<Event>, settle: int)
    requires tape.Sound() && r.pc.Loaded? && SilentPast(trig, tape, Next(trig, tape, r, Publish), after, settle)
    ensures SilentPast(trig, tape, r, [Publish] + after, settle)
  {
    assert ([Publish] + after)[1..] == after;
  }

  /** A swap whose cursor has reached the settle frame replaces nothing, and the next frame read
      comes from the stale window. */
  lemma LateSwapIsHeard(trig: Trig, tape: Tape, r: Rail, settle: int) returns (after: seq<Event>)
    requires tape.Sound() && Orderly(r) && r.deck.state.Exiting? && settle == r.deck.state.exitSeam + tape.xfade
    requires r.pc.Loaded? && Frontier(r) <= settle <= r.pc.cursor && r.window == Spike(tape, settle)
    ensures !SilentPast(trig, tape, r, [Publish] + after, settle)
  {
    var read := [Advance(1), Hear];
    after := if r.reading.Mid? then [Hear] + read else read;
    var top := Next(trig, tape, r, Publish);
    assert top == r.(pc := Top);
    var rested := if r.reading.Mid? then Next(trig, tape, top, Hear) else top;
    ReadRun(trig, tape, rested);
    if r.reading.Mid? {
      assert ([Hear] + read)[1..] == read;
    }
    CrossingIsHeard(trig, tape, top, after, [], settle);
    assert after + [] == after;
    assert ([Publish] + after)[1..] == after;
  }

  lemma ReadRun(trig: Trig, tape: Tape, r: Rail)
    requires tape.Sound() && r.reading.Rest?
    ensures QuietRun(trig, tape, r, [Advance(1), Hear])
    ensures Frontier(After(trig, tape, r, [Advance(1), Hear])) == r.reader + 1
  {
    var run := [Advance(1), Hear];
    assert run[1..] == [Hear] && run[1..][1..] == [];
  }

  // ---- two inputs that break it --------------------------------------------------------------

  /** A late arm: its boundary (frame 1) is behind the reader (frame 10), nothing is republished,
      the deck is silent, and the bus still hears the loop. */
  lemma LateArmIsStillHeard(trig: Trig)
    ensures ONES.Sound()
    ensures var late := Steps(trig, ONES, BOOT, Pass(0) + [Advance(10), Hear, ARM] + Pass(10) + [Advance(1)]);
            && late.Some?
            && DeckSample(trig, ONES, late.value.deck, 10, 0) == 0.0
            && Heard(ONES, late.value, Hear) == [1.0]
  {
    var r := OnesPlay(trig);
    var late := [Advance(10), Hear, ARM] + Pass(10) + [Advance(1)];
    assert Pass(0) + [Advance(10), Hear, ARM] + Pass(10) + [Advance(1)] == Pass(0) + late;
    StepsJoin(trig, ONES, BOOT, Pass(0), late);
    var read := [Advance(10), Hear, ARM];
    assert late == read + (Pass(10) + [Advance(1)]);
    ArmAfterTen(trig, r);
    StepsJoin(trig, ONES, r, read, Pass(10) + [Advance(1)]);
    var armed := Steps(trig, ONES, r, read).value;
    LatePass(trig, r, armed);
  }

  /** Armed at media time zero, the loop of ones settles at frame one. */
  lemma ArmSettlesAtOne(t: Transport)
    requires SameSound(t, BOOT.deck) && !t.recue
    ensures var armed := Apply(t, 1, AudioTransport.Vamping, Some(0));
            armed.state == Exiting(1) && armed.phase == 0 && !armed.recue
  {
    assert MediaTimeToAudioFrame(0) == 0;
  }

  lemma ArmAfterTen(trig: Trig, r: Rail)
    requires r.pc.Top? && r.reading.Rest? && r.reader == 0 && r.nextGen == 1
    ensures Steps(trig, ONES, r, [Advance(10), Hear, ARM])
            == Some(r.(reader := 10, bus := PlayerControl(1, AudioTransport.Vamping, Some(0)), nextGen := 2))
  {
    var run := [Advance(10), Hear, ARM];
    var advanced := Next(trig, ONES, r, run[0]);
    Unroll(trig, ONES, r, run);
    Unroll(trig, ONES, advanced, run[1..]);
    Unroll(trig, ONES, Next(trig, ONES, advanced, Hear), run[2..]);
  }

  lemma LatePass(trig: Trig, r: Rail, armed: Rail)
    requires InSync(trig, ONES, r) && SameSound(r.deck, BOOT.deck) && !r.deck.recue
    requires r == BOOT.(window := r.window, deck := r.deck)
    requires r.window.base == 0 && |r.window.samples| == LEAD && forall k | 0 <= k < LEAD :: r.window.samples[k] == 1.0
    requires armed == r.(reader := 10, bus := PlayerControl(1, AudioTransport.Vamping, Some(0)), nextGen := 2)
    ensures var late := Steps(trig, ONES, armed, Pass(10) + [Advance(1)]);
            && late.Some?
            && DeckSample(trig, ONES, late.value.deck, 10, 0) == 0.0
            && Heard(ONES, late.value, Hear) == [1.0]
  {
    ArmSettlesAtOne(r.deck);
    hide DeckSlice, InSync, Apply, Steps;
    PassSteps(trig, ONES, armed, 10);
    StepsJoin(trig, ONES, armed, Pass(10), [Advance(1)]);
    var passed := Steps(trig, ONES, armed, Pass(10)).value;
    assert passed.deck.state == Exiting(1) && passed.window == r.window && passed.reader == 10;
    Unroll(trig, ONES, passed, [Advance(1)]);
    var late := Next(trig, ONES, passed, Advance(1));
    assert late.window.At(ONES.C(), 10) == 1.0;
    assert Heard(ONES, late, Hear)[0] == late.window.At(ONES.C(), 10 * ONES.C() + 0);
  }

  /** A slow swap: the cursor loaded (frame 0) is behind the boundary (frame 1), but ten frames
      are read before the window is replaced, and frame 5 is heard where the deck is silent. */
  lemma SlowSwapIsStillHeard(trig: Trig)
    ensures ONES.Sound()
    ensures var slow := Steps(trig, ONES, BOOT, Pass(0) + [ARM, Follow, Load(0), Advance(10)]);
            && slow.Some?
            && slow.value.deck.state.Exiting? && slow.value.pc == Loaded(0) && 0 < slow.value.deck.state.exitSeam + ONES.xfade
            && DeckSample(trig, ONES, slow.value.deck, 5, 0) == 0.0
            && |Heard(ONES, slow.value, Hear)| == 10 && Heard(ONES, slow.value, Hear)[5] == 1.0
  {
    var r := OnesPlay(trig);
    var run := [ARM, Follow, Load(0), Advance(10)];
    StepsJoin(trig, ONES, BOOT, Pass(0), run);
    ArmSettlesAtOne(r.deck);
    hide DeckSlice, InSync, Apply;
    var armed := Next(trig, ONES, r, ARM);
    var followed := Next(trig, ONES, armed, Follow);
    assert followed.deck.state == Exiting(1);
    var loaded := Next(trig, ONES, followed, Load(0));
    var slow := Next(trig, ONES, loaded, Advance(10));
    Unroll(trig, ONES, r, run);
    Unroll(trig, ONES, armed, run[1..]);
    Unroll(trig, ONES, followed, run[2..]);
    Unroll(trig, ONES, loaded, run[3..]);
    assert slow.window.At(ONES.C(), 5) == 1.0;
    assert Heard(ONES, slow, Hear)[5] == slow.window.At(ONES.C(), 0 * ONES.C() + 5);
  }
}
