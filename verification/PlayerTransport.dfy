/** What the transport the audio rail follows means for what is heard: silence while paused or
    stopped, and where the loop takes up again. */
module PlayerTransport {
  import opened Audio
  import opened Mixer
  import opened LoopDeck
  import opened DeckTheorems
  import opened DeckBuild
  import opened Store
  import opened PlayerAudio
  import opened PlayerRail

  // ---- silence ----------------------------------------------------------------------------------

  /** A new pause or stop, once followed, silences every frame of the deck. */
  lemma FollowedPauseIsSilent(trig: Trig, tape: Tape, t: Transport, lastGen: nat, ctrl: PlayerControl, f: nat, c: nat)
    requires tape.Sound() && c < tape.C() && ctrl.generation != lastGen && !ctrl.state.Vamping?
    ensures DeckSample(trig, tape, Followed(t, tape.loopFrames, lastGen, ctrl), f, c) == 0.0
  {}

  /** A step that follows no new vamp. */
  predicate KeepsMute(r: Rail, e: Event) {
    e.Follow? ==> r.bus.generation == r.lastGen || !r.bus.state.Vamping?
  }

  ghost predicate MuteRun(trig: Trig, tape: Tape, r: Rail, run: seq<Event>)
    requires tape.Sound()
    decreases |run|
  {
    run != [] ==> Enabled(r, run[0]) && KeepsMute(r, run[0]) && MuteRun(trig, tape, Next(trig, tape, r, run[0]), run[1..])
  }

  function AfterMute(trig: Trig, tape: Tape, r: Rail, run: seq<Event>): Rail
    requires tape.Sound() && MuteRun(trig, tape, r, run)
    decreases |run|
  {
    if run == [] then r else AfterMute(trig, tape, Next(trig, tape, r, run[0]), run[1..])
  }

  /** Every frame of the deck is silent, whatever it is read at, and not on its way out. */
  ghost predicate SilentDeck(trig: Trig, tape: Tape, t: Transport)
    requires tape.Sound()
  {
    !t.state.Vamping? && !t.state.Exiting? && forall f: nat, c: nat | c < tape.C() :: DeckSample(trig, tape, t, f, c) == 0.0
  }

  /** Nothing in the window sounds. */
  predicate SilentWindow(r: Rail) {
    forall k | 0 <= k < |r.window.samples| :: r.window.samples[k] == 0.0
  }

  lemma MuteDeckStaysSilent(trig: Trig, tape: Tape, r: Rail, e: Event)
    requires tape.Sound() && Enabled(r, e) && KeepsMute(r, e) && SilentDeck(trig, tape, r.deck)
    ensures SilentDeck(trig, tape, Next(trig, tape, r, e).deck)
  {
    hide DeckSlice;
    var r' := Next(trig, tape, r, e);
    forall f: nat, c: nat | c < tape.C()
      ensures DeckSample(trig, tape, r'.deck, f, c) == 0.0
    {
      assert DeckSample(trig, tape, r.deck, f, c) == 0.0;
      if e.Follow? && r.bus.generation != r.lastGen {
        FollowedPauseIsSilent(trig, tape, r.deck, r.lastGen, r.bus, f, c);
      }
    }
  }

  lemma {:induction false} MuteRunStaysSilent(trig: Trig, tape: Tape, r: Rail, run: seq<Event>)
    requires tape.Sound() && MuteRun(trig, tape, r, run) && SilentDeck(trig, tape, r.deck)
    ensures SilentDeck(trig, tape, AfterMute(trig, tape, r, run).deck)
    ensures SilentWindow(r) ==> SilentWindow(AfterMute(trig, tape, r, run))
    decreases |run|
  {
    hide SilentDeck, SilentWindow;
    if run == [] {
    } else {
      MuteDeckStaysSilent(trig, tape, r, run[0]);
      MuteWindowStaysSilent(trig, tape, r, run[0]);
      MuteRunStaysSilent(trig, tape, Next(trig, tape, r, run[0]), run[1..]);
    }
  }

  lemma MuteWindowStaysSilent(trig: Trig, tape: Tape, r: Rail, e: Event)
    requires tape.Sound() && Enabled(r, e) && SilentDeck(trig, tape, r.deck)
    ensures SilentWindow(r) || e.Publish? ==> SilentWindow(Next(trig, tape, r, e))
  {
    if e.Publish? {
      PublishedSilence(trig, tape, r);
    }
    hide SilentDeck, Refill;
  }

  /** Whatever the window held, a silent deck replaces it with silence. */
  lemma PublishedSilence(trig: Trig, tape: Tape, r: Rail)
    requires tape.Sound() && r.pc.Loaded? && SilentDeck(trig, tape, r.deck)
    ensures SilentWindow(Next(trig, tape, r, Publish))
  {
    var c := r.pc.cursor;
    var read := r.deck.AfterRead(tape.loopFrames, c, LEAD);
    assert Next(trig, tape, r, Publish).window == RingSnapshot(c, DeckSlice(trig, tape, read, c, LEAD));
    forall k | 0 <= k < LEAD * tape.C()
      ensures DeckSlice(trig, tape, read, c, LEAD)[k] == 0.0
    {
      assert DeckSample(trig, tape, r.deck, c + k / tape.C(), k % tape.C()) == 0.0;
    }
  }

  lemma SilentWindowIsHeard(tape: Tape, r: Rail)
    requires SilentWindow(r) && r.reading.Mid?
    ensures forall k | 0 <= k < |Heard(tape, r, Hear)| :: Heard(tape, r, Hear)[k] == 0.0
  {
    var heard := Heard(tape, r, Hear);
    assert heard == r.window.Slice(tape.C(), r.reading.start, r.reading.frames);
    forall k | 0 <= k < |heard|
      ensures heard[k] == 0.0
    {
      assert heard[k] == r.window.At(tape.C(), r.reading.start * tape.C() + k);
    }
  }

  /** From a followed pause or stop on: whatever happened before, once a window has been published,
      every read is silence, over every interleaving, until a new vamp is followed. */
  lemma MutedUntilVamping(trig: Trig, tape: Tape, r: Rail, before: seq<Event>, after: seq<Event>)
    requires tape.Sound() && r.pc.Top? && r.bus.generation != r.lastGen && !r.bus.state.Vamping?
    requires MuteRun(trig, tape, Next(trig, tape, r, Follow), before)
    requires AfterMute(trig, tape, Next(trig, tape, r, Follow), before).pc.Loaded?
    requires MuteRun(trig, tape, Next(trig, tape, AfterMute(trig, tape, Next(trig, tape, r, Follow), before), Publish), after)
    ensures var published := Next(trig, tape, AfterMute(trig, tape, Next(trig, tape, r, Follow), before), Publish);
            var now := AfterMute(trig, tape, published, after);
            now.reading.Mid? ==> forall k | 0 <= k < |Heard(tape, now, Hear)| :: Heard(tape, now, Hear)[k] == 0.0
  {
    var followed := Next(trig, tape, r, Follow);
    forall f: nat, c: nat | c < tape.C()
      ensures DeckSample(trig, tape, followed.deck, f, c) == 0.0
    {
      FollowedPauseIsSilent(trig, tape, r.deck, r.lastGen, r.bus, f, c);
    }
    var loaded := AfterMute(trig, tape, followed, before);
    MuteRunStaysSilent(trig, tape, followed, before);
    MuteDeckStaysSilent(trig, tape, loaded, Publish);
    PublishedSilence(trig, tape, loaded);
    var published := Next(trig, tape, loaded, Publish);
    MuteRunStaysSilent(trig, tape, published, after);
    var now := AfterMute(trig, tape, published, after);
    hide SilentWindow, SilentDeck, AfterMute, MuteRun;
    if now.reading.Mid? {
      SilentWindowIsHeard(tape, now);
    }
  }

  // ---- and sound again ----------------------------------------------------------------------------

  function Vamped(generation: nat): PlayerControl {
    PlayerControl(generation, AudioTransport.Vamping, None)
  }

  lemma {:induction false} MuteReadsKeepPhase(tape: Tape, t: Transport, run: seq<Access>)
    requires !t.state.Vamping? && !t.state.Exiting?
    ensures var u := AfterAll(tape, t, run); u.state == t.state && u.phase == t.phase && u.recue == t.recue
    decreases |run|
  {
    if run == [] {
    } else {
      MuteReadsKeepPhase(tape, DeckTheorems.After(tape, t, run[0]), run[1..]);
    }
  }

  /** A pause holds the loop: followed by a vamp, however it was read in between, every frame is
      what it would have been without it. */
  lemma PauseResumesMidLoop(trig: Trig, tape: Tape, t: Transport, lastGen: nat, paused: PlayerControl, run: seq<Access>,
                            f: nat, c: nat)
    requires tape.Sound() && c < tape.C() && t.state.Vamping? && paused.generation != lastGen && paused.state.Paused?
    ensures var held := AfterAll(tape, Followed(t, tape.loopFrames, lastGen, paused), run);
            var resumed := Followed(held, tape.loopFrames, paused.generation, Vamped(paused.generation + 1));
            DeckSample(trig, tape, resumed, f, c) == DeckSample(trig, tape, t, f, c)
  {
    MuteReadsKeepPhase(tape, Followed(t, tape.loopFrames, lastGen, paused), run);
  }

  /** A stop re-cues it: followed by a vamp, however it was read in between, the first top-up plays
      the lap from its start, and so does every frame after it. */
  lemma StopRestartsTheLap(trig: Trig, tape: Tape, t: Transport, lastGen: nat, stopped: PlayerControl, run: seq<Access>,
                           w: RingSnapshot, cursor: nat, f: nat, c: nat)
    requires tape.Sound() && c < tape.C() && tape.loopFrames > 0 && stopped.generation != lastGen && stopped.state.Stopped?
    requires f >= cursor
    ensures var held := AfterAll(tape, Followed(t, tape.loopFrames, lastGen, stopped), run);
            var restarted := Followed(held, tape.loopFrames, stopped.generation, Vamped(stopped.generation + 1));
            var (deck, window) := Refill(trig, tape, restarted, w, cursor);
            && DeckSample(trig, tape, deck, f, c) == LapSample(tape, (f - cursor) % tape.loopFrames, c)
            && window.base == cursor
            && (f < cursor + LEAD ==> window.At(tape.C(), f * tape.C() + c) == LapSample(tape, (f - cursor) % tape.loopFrames, c))
  {
    var held := AfterAll(tape, Followed(t, tape.loopFrames, lastGen, stopped), run);
    MuteReadsKeepPhase(tape, Followed(t, tape.loopFrames, lastGen, stopped), run);
    var restarted := Followed(held, tape.loopFrames, stopped.generation, Vamped(stopped.generation + 1));
    var read := restarted.AfterRead(tape.loopFrames, cursor, LEAD);
    assert read.phase == cursor && read.state.Vamping?;
    hide DeckSample, LapSample;
    if f < cursor + LEAD {
      SliceAt(trig, tape, read, cursor, LEAD, f, c);
    }
    RestartedFrame(trig, tape, read, f, c);
  }

  lemma RestartedFrame(trig: Trig, tape: Tape, t: Transport, f: nat, c: nat)
    requires tape.Sound() && c < tape.C() && tape.loopFrames > 0 && t.state.Vamping? && t.phase <= f
    ensures DeckSample(trig, tape, t, f, c) == LapSample(tape, (f - t.phase) % tape.loopFrames, c)
  {}

  /** A published slice gives the deck's sample at each of its frames. */
  lemma SliceAt(trig: Trig, tape: Tape, t: Transport, base: nat, frames: nat, f: nat, c: nat)
    requires tape.Sound() && c < tape.C() && base <= f < base + frames
    ensures RingSnapshot(base, DeckSlice(trig, tape, t, base, frames)).At(tape.C(), f * tape.C() + c)
            == DeckSample(trig, tape, t, f, c)
  {
    hide DeckSample;
    var C := tape.C();
    Distribute(f, base, C);
    FrameInside(f - base, c, frames, C);
    QuotientUnique((f - base) * C + c, C, f - base, c);
  }

  /** A vamp without an exit loops on from the phase, whatever the deck was doing. */
  lemma FollowedVampLoops(trig: Trig, tape: Tape, t: Transport, lastGen: nat, ctrl: PlayerControl, f: nat, c: nat)
    requires tape.Sound() && c < tape.C() && tape.loopFrames > 0 && t.phase <= f
    requires ctrl.generation != lastGen && ctrl.state.Vamping? && ctrl.exitArmAnchor.None?
    ensures DeckSample(trig, tape, Followed(t, tape.loopFrames, lastGen, ctrl), f, c)
            == LapSample(tape, (f - t.phase) % tape.loopFrames, c)
  {}

  /** An armed vamp, once followed: the loop up to the first lap boundary after the anchor's frame,
      its tail for a crossfade, and silence from there. */
  lemma FollowedArmShape(trig: Trig, tape: Tape, t: Transport, lastGen: nat, ctrl: PlayerControl, boundary: nat, f: nat, c: nat)
    requires tape.Sound() && c < tape.C() && tape.loopFrames > 0 && !t.recue
    requires ctrl.generation != lastGen && ctrl.state.Vamping? && ctrl.exitArmAnchor.Some?
    requires var anchor := MediaTimeToAudioFrame(ctrl.exitArmAnchor.value);
             && t.phase <= anchor < boundary <= anchor + tape.loopFrames && (boundary - t.phase) % tape.loopFrames == 0
    ensures var loop := DeckSample(trig, tape, t.Vamp(), f, c);
            var heard := DeckSample(trig, tape, Followed(t, tape.loopFrames, lastGen, ctrl), f, c);
            && (f < boundary ==> heard == loop)
            && (boundary <= f < boundary + tape.xfade <= boundary + MAX_U32 ==>
                  heard == ClampUnit(Scale(trig.cos(TailAngle(trig, f - boundary, tape.xfade)), loop)))
            && (f >= boundary + tape.xfade ==> heard == 0.0)
  {
    var anchor := MediaTimeToAudioFrame(ctrl.exitArmAnchor.value);
    SeamIsNextBoundary(tape.loopFrames, t.phase, anchor, boundary);
    OneBoundary(tape.loopFrames, t.phase, boundary, NextWrap(tape.loopFrames, t.phase, anchor));
    hide MediaTimeToAudioFrame, NextWrap, LapSample, ExitGain;
    if boundary <= f < boundary + tape.xfade <= boundary + MAX_U32 {
      ArmedTailIsCosine(trig, tape, t.Vamp(), anchor, f - boundary, c);
    }
  }

  /** Once a window that reaches the seam has been published the exit cannot be withdrawn; until then,
      and while the seam has not been read, it can. */
  lemma PublishedSeamStandsIff(trig: Trig, tape: Tape, t: Transport, w: RingSnapshot, cursor: nat, seam: nat)
    requires tape.Sound() && t.state == Exiting(seam) && tape.loopFrames > 0 && cursor < seam + tape.xfade
    ensures var deck := Refill(trig, tape, t, w, cursor).0;
            deck.CancelExit().state.Exiting? <==> t.cursor >= seam || cursor + LEAD >= seam
  {
    hide DeckSlice;
  }

  /** Two lap boundaries less than a lap apart are one. */
  lemma OneBoundary(loopFrames: nat, phase: nat, a: nat, b: nat)
    requires loopFrames > 0 && phase <= a < b + loopFrames && phase <= b < a + loopFrames
    requires (a - phase) % loopFrames == 0 && (b - phase) % loopFrames == 0
    ensures a == b
  {
    var p, q := (a - phase) / loopFrames, (b - phase) / loopFrames;
    FrameCount(a - phase, loopFrames);
    FrameCount(b - phase, loopFrames);
    Distribute(p, q, loopFrames);
    if p > q {
      ScaleMono(1, p - q, loopFrames);
    } else if p < q {
      ScaleMono(p - q, -1, loopFrames);
    }
  }
}
