/** The media player's audio rail: a fill loop that follows the video rail's published
    transport and keeps re-deriving a bounded lookahead window, while the bus reads it. */
module PlayerAudio {
  import opened Audio
  import opened Mixer
  import opened LoopDeck
  import opened DeckBuild
  import opened Store

  // PLAYER_AUDIO_LEAD_FRAMES: half a second at 48 kHz.
  const LEAD: nat := 24_000

  datatype AudioTransport = Vamping | Paused | Stopped

  datatype PlayerControl = PlayerControl(generation: nat, state: AudioTransport, exitArmAnchor: Option<int>)

  // ---- one wakeup of the fill loop --------------------------------------------------

  function Apply(t: Transport, loopFrames: nat, state: AudioTransport, anchor: Option<int>): Transport {
    match state
    case Vamping =>
      (match anchor
       case None => t.Vamp()
       case Some(ns) => t.Vamp().ArmExitAt(loopFrames, MediaTimeToAudioFrame(ns)))
    case Paused => t.Pause()
    case Stopped => t.Stop()
  }

  /** The deck after one sample of the control bus: an already applied generation is
      nothing new. */
  function Followed(t: Transport, loopFrames: nat, lastGen: nat, ctrl: PlayerControl): Transport {
    if ctrl.generation == lastGen then t else Apply(t, loopFrames, ctrl.state, ctrl.exitArmAnchor)
  }

  /** How far the window reaches when re-derived at cursor `c`. */
  function Horizon(t: Transport, xfade: nat, c: nat): nat {
    match t.SettleFrame(xfade)
    case None => c + LEAD
    case Some(settle) => Min(settle, c + LEAD)
  }

  /** The deck and the window after one top-up at cursor `c`; nothing is published when the
      horizon is not ahead of the cursor. */
  function Refill(trig: Trig, tape: Tape, t: Transport, w: RingSnapshot, c: nat): (Transport, RingSnapshot)
    requires tape.Sound()
  {
    var h := Horizon(t, tape.xfade, c);
    if h <= c then (t, w) else
      var read := t.AfterRead(tape.loopFrames, c, h - c);
      (read, RingSnapshot(c, DeckSlice(trig, tape, read, c, h - c)))
  }

  method FollowVideoControl(ctrl: PlayerControl, deck: LoopDeck, lastGen: nat) returns (gen: nat)
    modifies deck
    ensures deck.View() == Followed(old(deck.View()), deck.tape.loopFrames, lastGen, ctrl)
    ensures gen == ctrl.generation
  {
    if ctrl.generation == lastGen {
      return lastGen;
    }
    gen := ctrl.generation;
    match ctrl.state
    case Vamping =>
      deck.Vamp();
      if ctrl.exitArmAnchor.Some? {
        deck.ArmExitAt(MediaTimeToAudioFrame(ctrl.exitArmAnchor.value));
      }
    case Paused => deck.Pause();
    case Stopped => deck.Stop();
  }

  /** One pass of the loop body: follow the video, then replace `[cursor, horizon)`. */
  method FillOnce(ctrl: PlayerControl, lastGen: nat, deck: LoopDeck, store: AudioStore) returns (gen: nat)
    requires deck.tape.Sound() && store.Valid() && store.format == deck.tape.format
    modifies deck, store`window
    ensures store.Valid() && gen == ctrl.generation
    ensures (deck.View(), store.window)
            == Refill(deck.trig, deck.tape, Followed(old(deck.View()), deck.tape.loopFrames, lastGen, ctrl),
                      old(store.window), Max(store.readFrame, 0))
  {
    gen := FollowVideoControl(ctrl, deck, lastGen);
    var cursor := Max(store.readFrame, 0);
    var lookaheadEnd := cursor + LEAD;
    var settle := deck.View().SettleFrame(deck.tape.xfade);
    var horizon := if settle.Some? then Min(settle.value, lookaheadEnd) else lookaheadEnd;
    if horizon > cursor {
      var frames := Min(horizon - cursor, LEAD);
      var scratch := deck.ReadInto(cursor, frames);
      WholeFrames(frames, store.format.Channels());
      var published := store.PublishWindow(cursor, scratch);
      assert published.Done?;
    }
  }

  // ---- keeping only the vamp window ------------------------------------------------------------------

  /** The whole frames of a stream of decoded blocks, end to end. */
  function Joined(blocks: seq<seq<real>>, channels: nat): (r: seq<real>)
    requires channels > 0
    ensures |r| % channels == 0
  {
    if blocks == [] then [] else
      var last := blocks[|blocks| - 1];
      var frames := |last| / channels;
      WholeFrames(frames, channels);
      WholeSum(|Joined(blocks[..|blocks| - 1], channels)|, frames * channels, channels);
      Joined(blocks[..|blocks| - 1], channels) + last[..frames * channels]
  }

  /** Samples `[a, b)` of a stream, as far as it reaches. */
  function Cut(s: seq<real>, a: nat, b: nat): (r: seq<real>)
    ensures |r| == Max(0, Min(b, |s|) - a)
  {
    if a >= Min(b, |s|) then [] else s[a..Min(b, |s|)]
  }

  /** Frames `[from, to)` of an interleaved stream. */
  function FrameWindow(s: seq<real>, channels: nat, from: nat, to: nat): seq<real> {
    ScaleMono(0, from, channels);
    ScaleMono(0, to, channels);
    Cut(s, from * channels, to * channels)
  }

  lemma NextBlock(blocks: seq<seq<real>>, channels: nat, i: nat)
    requires channels > 0 && i < |blocks|
    ensures var frames := |blocks[i]| / channels;
            && 0 <= frames * channels <= |blocks[i]|
            && Joined(blocks[..i + 1], channels) == Joined(blocks[..i], channels) + blocks[i][..frames * channels]
  {
    assert blocks[..i + 1][..i] == blocks[..i];
    WholeFrames(|blocks[i]| / channels, channels);
  }

  lemma CutGrows(s: seq<real>, more: seq<real>, a: nat, b: nat)
    ensures Cut(s + more, a, b) == Cut(s, a, b) + Cut(more, Max(a - |s|, 0), Max(b - |s|, 0))
  {}

  /** A stream of whole frames. */
  predicate Spans(s: seq<real>, channels: nat, frames: nat) {
    |s| == frames * channels
  }

  lemma BlockSpans(blocks: seq<seq<real>>, channels: nat, i: nat, start: nat)
    requires channels > 0 && i < |blocks| && Spans(Joined(blocks[..i], channels), channels, start)
    ensures Spans(Joined(blocks[..i + 1], channels), channels, start + |blocks[i]| / channels)
  {
    hide Joined;
    NextBlock(blocks, channels, i);
    Distribute(start, |blocks[i]| / channels, channels);
  }

  /** Growing the stream by whole frames grows its window by the overlap. */
  lemma WindowGrows(s: seq<real>, more: seq<real>, channels: nat, from: nat, to: nat, start: nat, end: nat)
    requires channels > 0 && Spans(s, channels, start) && Spans(s + more, channels, end) && from < to
    ensures start <= end
    ensures var (lo, hi) := (Max(from, start), Min(to, end));
            FrameWindow(s + more, channels, from, to)
            == FrameWindow(s, channels, from, to) + (if lo < hi then FrameWindow(more, channels, lo - start, hi - start) else [])
  {
    hide FrameWindow;
    ScaleStrict(end, start, channels);
    var lo, hi := Max(from, start), Min(to, end);
    var a, b := from * channels, to * channels;
    ScaleMono(0, from, channels);
    ScaleMono(from, to, channels);
    WindowIsCut(s, channels, from, to);
    WindowIsCut(s + more, channels, from, to);
    CutGrows(s, more, a, b);
    BoundsInSamples(channels, from, to, start, end);
    if lo < hi {
      WindowIsCut(more, channels, lo - start, hi - start);
    }
  }

  /** Frames of a block that its last, partial frame does not reach. */
  lemma WholePart(block: seq<real>, channels: nat, a: nat, b: nat)
    requires channels > 0 && a <= b <= |block| / channels
    ensures var whole := |block| / channels * channels;
            0 <= whole <= |block| && FrameWindow(block[..whole], channels, a, b) == FrameWindow(block, channels, a, b)
  {
    SliceBounds(|block|, channels, a, b);
    SliceBounds(|block|, channels, b, |block| / channels);
  }

  lemma WindowIsCut(s: seq<real>, channels: nat, from: nat, to: nat)
    ensures from * channels >= 0 && to * channels >= 0
    ensures FrameWindow(s, channels, from, to) == Cut(s, from * channels, to * channels)
  {}

  lemma BoundsInSamples(channels: nat, from: nat, to: nat, start: nat, end: nat)
    requires channels > 0 && start <= end
    ensures var (lo, hi) := (Max(from, start), Min(to, end));
            && (lo - start) * channels == Max(from * channels - start * channels, 0)
            && (hi - start) * channels == Min(to * channels - start * channels, end * channels - start * channels)
            && (lo < hi <==> (lo - start) * channels < (hi - start) * channels)
  {
    var lo, hi := Max(from, start), Min(to, end);
    Distribute(lo, start, channels);
    Distribute(hi, start, channels);
    ScaleStrict(lo, hi, channels);
    ScaleStrict(start, from, channels);
    ScaleStrict(to, end, channels);
  }

  /** One more block: the window of the frames so far grows by what the block has of it. */
  lemma WindowTakes(blocks: seq<seq<real>>, channels: nat, i: nat, from: nat, to: nat, start: nat, end: nat)
    requires channels > 0 && i < |blocks| && from < to && end == start + |blocks[i]| / channels
    requires Spans(Joined(blocks[..i], channels), channels, start)
    ensures Spans(Joined(blocks[..i + 1], channels), channels, end)
    ensures var (lo, hi) := (Max(from, start), Min(to, end));
            FrameWindow(Joined(blocks[..i + 1], channels), channels, from, to)
            == FrameWindow(Joined(blocks[..i], channels), channels, from, to)
               + (if lo < hi then FrameWindow(blocks[i], channels, lo - start, hi - start) else [])
  {
    hide Joined, FrameWindow, Spans;
    var lo, hi := Max(from, start), Min(to, end);
    BlockSpans(blocks, channels, i, start);
    NextBlock(blocks, channels, i);
    WindowGrows(Joined(blocks[..i], channels), blocks[i][..|blocks[i]| / channels * channels], channels, from, to, start, end);
    if lo < hi {
      WholePart(blocks[i], channels, lo - start, hi - start);
    }
  }

  lemma SliceBounds(len: nat, channels: nat, a: nat, b: nat)
    requires channels > 0 && a <= b <= len / channels
    ensures 0 <= a * channels <= b * channels <= len
  {
    ScaleMono(0, a, channels);
    ScaleMono(a, b, channels);
    ScaleMono(b, len / channels, channels);
  }

  /** Frames `[a, b)` of a block that has them all. */
  function FrameSlice(block: seq<real>, channels: nat, a: nat, b: nat): (r: seq<real>)
    requires channels > 0 && a <= b <= |block| / channels
    ensures r == FrameWindow(block, channels, a, b)
  {
    SliceBounds(|block|, channels, a, b);
    block[a * channels..b * channels]
  }

  lemma Overlaps(from: nat, to: nat, start: nat, end: nat)
    requires start <= end && from < to
    ensures start <= Max(from, start) && Min(to, end) <= end
    ensures Max(from, start) < Min(to, end) <==> from < end && start < to && start < end
    ensures Min(to, end) >= to ==> to <= end
  {}

  /** Keeps only `[inSample, wantEnd)` of a stream decoded from frame zero: never more than the
      window is held, whatever precedes it. */
  method RetainVampWindow(blocks: seq<seq<real>>, channels: nat, inSample: nat, wantEnd: nat) returns (out: seq<real>)
    ensures channels == 0 || wantEnd <= inSample ==> out == []
    ensures channels > 0 && wantEnd > inSample ==>
              && out == FrameWindow(Joined(blocks, channels), channels, inSample, wantEnd)
              && |out| <= (wantEnd - inSample) * channels
  {
    out := [];
    if channels == 0 || wantEnd <= inSample {
      return;
    }
    WindowFits(Joined(blocks, channels), channels, inSample, wantEnd);
    hide Joined, FrameWindow, FrameSlice, Spans, Max, Min;
    var decodedFrames: nat := 0;
    var i := 0;
    WindowOfNothing(channels, inSample, wantEnd);
    while i < |blocks|
      invariant 0 <= i <= |blocks|
      invariant Spans(Joined(blocks[..i], channels), channels, decodedFrames)
      invariant out == FrameWindow(Joined(blocks[..i], channels), channels, inSample, wantEnd)
    {
      var block := blocks[i];
      var blockFrames := |block| / channels;
      WindowTakes(blocks, channels, i, inSample, wantEnd, decodedFrames, decodedFrames + blockFrames);
      Overlaps(inSample, wantEnd, decodedFrames, decodedFrames + blockFrames);
      i := i + 1;
      if blockFrames == 0 {
        continue;
      }
      var blockStart := decodedFrames;
      var blockEnd := blockStart + blockFrames;
      decodedFrames := blockEnd;
      if blockEnd <= inSample {
        continue;
      }
      if blockStart >= wantEnd {
        WindowIsFull(blocks, channels, i, inSample, wantEnd, decodedFrames);
        return;
      }
      var from := Max(inSample, blockStart);
      var to := Min(wantEnd, blockEnd);
      out := out + FrameSlice(block, channels, from - blockStart, to - blockStart);
      if to >= wantEnd {
        WindowIsFull(blocks, channels, i, inSample, wantEnd, decodedFrames);
        return;
      }
    }
    assert blocks[..i] == blocks;
  }

  lemma WindowOfNothing(channels: nat, from: nat, to: nat)
    requires channels > 0 && from < to
    ensures Spans(Joined([], channels), channels, 0) && FrameWindow(Joined([], channels), channels, from, to) == []
  {}

  lemma WindowFits(s: seq<real>, channels: nat, from: nat, to: nat)
    requires channels > 0 && from < to
    ensures |FrameWindow(s, channels, from, to)| <= (to - from) * channels
  {}

  /** Once the stream has reached the window's end, the rest of it adds nothing. */
  lemma {:induction false} WindowIsFull(blocks: seq<seq<real>>, channels: nat, i: nat, from: nat, to: nat, frames: nat)
    requires channels > 0 && i <= |blocks| && from < to <= frames
    requires Spans(Joined(blocks[..i], channels), channels, frames)
    ensures FrameWindow(Joined(blocks, channels), channels, from, to)
            == FrameWindow(Joined(blocks[..i], channels), channels, from, to)
    decreases |blocks| - i
  {
    hide Joined, FrameWindow, Spans;
    if i == |blocks| {
      assert blocks[..i] == blocks;
    } else {
      var more := |blocks[i]| / channels;
      WindowTakes(blocks, channels, i, from, to, frames, frames + more);
      WindowIsFull(blocks, channels, i + 1, from, to, frames + more);
    }
  }

  function Concat(blocks: seq<seq<real>>): seq<real> {
    if blocks == [] then [] else Concat(blocks[..|blocks| - 1]) + blocks[|blocks| - 1]
  }

  /** How the decoder slices a stream into whole-frame blocks does not matter: only the
      samples do. */
  lemma {:induction false} WholeBlocksJoin(blocks: seq<seq<real>>, channels: nat)
    requires channels > 0 && forall i | 0 <= i < |blocks| :: |blocks[i]| % channels == 0
    ensures Joined(blocks, channels) == Concat(blocks)
  {
    if blocks == [] {
    } else {
      var last := blocks[|blocks| - 1];
      WholeBlocksJoin(blocks[..|blocks| - 1], channels);
      FrameCount(|last|, channels);
      assert last[..|last|] == last;
    }
  }

  // ---- priming the deck ------------------------------------------------------------------------------

  /** The loop length the driver asks for, and the stream frames it keeps for it. */
  datatype Span = Span(loopFrames: nat, from: nat, to: nat)

  function VampWindow(vampIn: nat, vampOut: nat, num: int, den: int): Span {
    Span(FramesToSamples(Max(vampOut - vampIn, 0), num, den),
         FramesToSamples(vampIn, num, den),
         FramesToSamples(vampOut, num, den) + DEFAULT_CROSSFADE_FRAMES)
  }

  predicate Primable(w: Span) {
    0 < w.loopFrames <= MAX_LOOP_SECONDS * SAMPLE_RATE
  }

  /** From a single sample to ten minutes of them. */
  lemma PrimableIff(w: Span)
    ensures Primable(w) <==> 1 <= w.loopFrames <= 28_800_000
  {}

  /** Primes a player's deck from its decoded stream: an empty or over-long window rides silence;
      otherwise only the window and its lap-over are kept, and built into a loop. */
  method PrimeDeck(math: SeamMath, format: AudioFormat, blocks: seq<seq<real>>, vampIn: nat, vampOut: nat,
                   num: int, den: int)
    returns (tape: Tape)
    ensures tape.Sound() && tape.format == format
    ensures var w := VampWindow(vampIn, vampOut, num, den);
            var kept := FrameWindow(Joined(blocks, format.Channels()), format.Channels(), w.from, w.to);
            && (!Primable(w) ==> tape == EmptyTape(format))
            && (Primable(w) && tape.loopFrames > 0 ==>
                  && tape.loopFrames == w.loopFrames
                  && Records(math, tape, format, Padded(kept, w.loopFrames * format.Channels()), w.loopFrames, DEFAULT_CROSSFADE_FRAMES))
            && (Primable(w) && |kept| % format.Channels() == 0 ==>
                  (tape.loopFrames > 0 <==> w.loopFrames <= |kept| / format.Channels() + SHORTFALL_TOLERANCE_FRAMES))
  {
    hide Records, Padded, Joined, FrameWindow, FramesToSamples;
    var w := VampWindow(vampIn, vampOut, num, den);
    if !Primable(w) {
      return EmptyTape(format);
    }
    WindowIsForward(vampIn, vampOut, num, den);
    var window := RetainVampWindow(blocks, format.Channels(), w.from, w.to);
    tape := FromWindow(math, format, window, w.loopFrames, DEFAULT_CROSSFADE_FRAMES);
  }

  lemma WindowIsForward(vampIn: nat, vampOut: nat, num: int, den: int)
    requires Primable(VampWindow(vampIn, vampOut, num, den))
    ensures num > 0 && den > 0 && vampIn <= vampOut
    ensures VampWindow(vampIn, vampOut, num, den).from < VampWindow(vampIn, vampOut, num, den).to
  {
    NoFramesNoSamples(num, den);
    if num > 0 && den > 0 && vampIn <= vampOut {
      FrameToSampleIsExact(vampIn, vampOut, num, den);
      hide FrameToSample;
    }
  }

  lemma NoFramesNoSamples(num: int, den: int)
    ensures FramesToSamples(0, num, den) == 0
    ensures num <= 0 || den <= 0 ==> forall frames: nat :: FramesToSamples(frames, num, den) == 0
  {
    if num > 0 && den > 0 {
      assert 0 * SAMPLE_RATE * den == 0;
      QuotientUnique(num / 2, num, 0, num / 2);
    }
  }

  /** Whether the material has a whole crossfade past the loop point, so that the seam's tail is
      what really follows the loop and not its own head again. */
  predicate HasRealTail(t: Tape, decoded: seq<real>) {
    |t.body| + |t.seam| <= |decoded|
  }

  /** From a stream that reaches the window's end, a primed loop keeps its real tail exactly when
      the window's rounded ends are at least its rounded length apart, or the loop is too short
      for a whole crossfade.  One sample less and the entire lap-over is dropped. */
  lemma RealTailIff(math: SeamMath, t: Tape, stream: seq<real>, vampIn: nat, vampOut: nat, num: int, den: int)
    requires var w := VampWindow(vampIn, vampOut, num, den);
             && Primable(w) && |stream| >= w.to * t.C()
             && Records(math, t, t.format, Padded(FrameWindow(stream, t.C(), w.from, w.to), w.loopFrames * t.C()),
                        w.loopFrames, DEFAULT_CROSSFADE_FRAMES)
    ensures var w := VampWindow(vampIn, vampOut, num, den);
            HasRealTail(t, Padded(FrameWindow(stream, t.C(), w.from, w.to), w.loopFrames * t.C()))
            <==> || FramesToSamples(vampOut, num, den) - w.from >= w.loopFrames
                 || w.loopFrames / 2 < DEFAULT_CROSSFADE_FRAMES
  {
    var w, C := VampWindow(vampIn, vampOut, num, den), t.C();
    WindowIsForward(vampIn, vampOut, num, den);
    WindowLengthsAgree(vampIn, vampOut, num, den);
    hide FramesToSamples;
    WindowSpan(stream, C, w.from, w.to);
    var kept, xfade := w.to - w.from, Min(DEFAULT_CROSSFADE_FRAMES, w.loopFrames / 2);
    Distribute(w.loopFrames, xfade, C);
    ScaleStrict(kept, w.loopFrames + xfade, C);
    ScaleStrict(kept, w.loopFrames, C);
  }

  lemma WindowSpan(stream: seq<real>, channels: nat, from: nat, to: nat)
    requires channels > 0 && from <= to && |stream| >= to * channels
    ensures |FrameWindow(stream, channels, from, to)| == (to - from) * channels
  {
    Distribute(to, from, channels);
    ScaleMono(from, to, channels);
  }

  /** The drop is real: at 30000/1001 frames a second, frames 1 to 4 are 4805 samples long but
      4804 apart. */
  lemma NtscWindowLosesItsTail()
    ensures var w := VampWindow(1, 4, 30_000, 1_001);
            && Primable(w) && w.loopFrames == 4_805
            && FramesToSamples(4, 30_000, 1_001) - w.from == 4_804
            && w.loopFrames / 2 >= DEFAULT_CROSSFADE_FRAMES
  {
    assert FramesToSamples(3, 30_000, 1_001) == (3 * 48_000 * 1_001 + 15_000) / 30_000;
  }
}
