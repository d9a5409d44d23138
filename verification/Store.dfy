/** The bounded last-good store of one source (`AudioStore`): a window of interleaved
    PCM on an absolute frame axis, written by one decode thread and sampled by the
    output clock through a cursor of its own. */
module Store {
  import opened Audio

  /** The immutable window a reader loads: `samples` starts at absolute frame `base`. */
  datatype RingSnapshot = RingSnapshot(base: int, samples: seq<real>) {
    function HeadFrame(channels: nat): int
      requires channels > 0
    {
      base + |samples| / channels
    }

    /** Whether the window holds absolute sample `s` (`frame * channels + channel`). */
    predicate Holds(channels: nat, s: int) {
      base * channels <= s < base * channels + |samples|
    }

    /** The value heard at absolute sample `s`: silence outside the window. */
    function At(channels: nat, s: int): real {
      if Holds(channels, s) then samples[s - base * channels] else 0.0
    }

    /** The gap-free reading of `frames` frames from absolute frame `start`. */
    function Slice(channels: nat, start: int, frames: nat): (r: seq<real>)
      ensures |r| == frames * channels
    {
      WholeFrames(frames, if channels == 0 then 1 else channels);
      seq(frames * channels, k => At(channels, start * channels + k))
    }
  }

  /** The window after `incoming` is written at absolute frame `at`: its head never
      retreats, it spans at most `capacity` frames, the incoming block wins where it
      lies, and a hole between the two is silence. */
  function Written(w: RingSnapshot, capacity: nat, channels: nat, at: int, incoming: seq<real>): (r: RingSnapshot)
    requires channels > 0
  {
    var head := Max(w.HeadFrame(channels), at + |incoming| / channels);
    var base := Max(Min(w.base, at), head - capacity);
    ScaleMono(0, head - base, channels);
    RingSnapshot(base, seq((head - base) * channels, k =>
      Overlay(w, channels, at, incoming, base * channels + k)))
  }

  /** The value at absolute sample `s` once `incoming` lies over `w` at frame `at`. */
  function Overlay(w: RingSnapshot, channels: nat, at: int, incoming: seq<real>, s: int): real {
    var block := RingSnapshot(at, incoming);
    if block.Holds(channels, s) then block.At(channels, s) else w.At(channels, s)
  }

  lemma WrittenIs(w: RingSnapshot, capacity: nat, channels: nat, at: int, incoming: seq<real>, base: int, merged: seq<real>)
    requires channels > 0
    requires base == Max(Min(w.base, at), Max(w.HeadFrame(channels), at + |incoming| / channels) - capacity)
    requires |merged| == (Max(w.HeadFrame(channels), at + |incoming| / channels) - base) * channels
    requires forall k | 0 <= k < |merged| :: merged[k] == Overlay(w, channels, at, incoming, base * channels + k)
    ensures RingSnapshot(base, merged) == Written(w, capacity, channels, at, incoming)
  {
    hide Overlay, RingSnapshot.HeadFrame;
  }

  /** Copies `src` into `dst` from frame `dstFrame` on, clamped at both ends. */
  method CopyInto(dst: array<real>, src: seq<real>, dstFrame: int, channels: nat)
    modifies dst
    ensures forall k | 0 <= k < dst.Length ::
              dst[k] == if channels > 0 && dstFrame >= 0 && RingSnapshot(dstFrame, src).Holds(channels, k)
                        then src[k - dstFrame * channels] else old(dst[k])
  {
    if channels == 0 || |src| == 0 || dstFrame < 0 {
      return;
    }
    ScaleMono(0, dstFrame, channels);
    var off := dstFrame * channels;
    if off > dst.Length {
      return;
    }
    var run := Min(dst.Length - off, |src|);
    forall k | 0 <= k < run {
      dst[off + k] := src[k];
    }
    assert forall k | off <= k < off + run :: dst[k] == src[k - off] by {
      forall k | off <= k < off + run ensures dst[k] == src[k - off] {
        assert dst[off + (k - off)] == src[k - off];
      }
    }
  }

  /** Lays `src`, whose first frame is absolute frame `srcBase`, over `dst`, whose first
      frame is `dstBase`.  Frames below `dstBase` are dropped during the copy. */
  method OverlayFrom(dst: array<real>, src: seq<real>, srcBase: int, dstBase: int, channels: nat)
    modifies dst
    ensures forall k | 0 <= k < dst.Length ::
              dst[k] == if channels > 0 && RingSnapshot(srcBase, src).Holds(channels, dstBase * channels + k)
                        then src[dstBase * channels + k - srcBase * channels] else old(dst[k])
  {
    if channels == 0 || |src| == 0 {
      return;
    }
    var skipFrames := Max(dstBase - srcBase, 0);
    ScaleMono(0, skipFrames, channels);
    Distribute(dstBase, srcBase, channels);
    var skipSamples := skipFrames * channels;
    if skipSamples > |src| {
      return;
    }
    var dstFrame := srcBase + skipFrames - dstBase;
    Distribute(srcBase, dstBase, channels);
    Distribute(srcBase - dstBase, skipFrames, channels);
    CopyInto(dst, src[skipSamples..], dstFrame, channels);
    if srcBase > dstBase {
      ScaleMono(dstBase, srcBase, channels);
    }
  }

  class AudioStore {
    const format: AudioFormat
    const capacityFrames: nat
    var window: RingSnapshot
    var readFrame: int

    predicate Valid()
      reads this
    {
      capacityFrames >= 1 && |window.samples| % format.Channels() == 0
    }

    constructor (format: AudioFormat, capacity: nat)
      ensures Valid() && this.format == format && capacityFrames == Max(capacity, 1)
      ensures window == RingSnapshot(0, []) && readFrame == 0
    {
      this.format := format;
      capacityFrames := Max(capacity, 1);
      window := RingSnapshot(0, []);
      readFrame := 0;
    }

    method SeekTo(frame: int)
      modifies this`readFrame
      ensures readFrame == frame
    {
      readFrame := frame;
    }

    /** Parks the cursor at the writer's head. */
    method SeekToLiveEdge()
      modifies this`readFrame
      ensures readFrame == window.HeadFrame(format.Channels())
    {
      readFrame := window.HeadFrame(format.Channels());
    }

    /** Appends at the live edge, dropping the oldest frames beyond capacity. */
    method PublishSamples(samples: seq<real>) returns (r: Outcome)
      requires Valid()
      modifies this`window
      ensures Valid()
      ensures |samples| % format.Channels() != 0 ==>
                r == RaggedBlock(|samples|, format.Channels()) && window == old(window)
      ensures |samples| % format.Channels() == 0 ==>
                r == Done &&
                window == Written(old(window), capacityFrames, format.Channels(),
                                  old(window).HeadFrame(format.Channels()), samples)
    {
      var channels := format.Channels();
      if |samples| % channels != 0 {
        return RaggedBlock(|samples|, channels);
      }
      var capSamples := capacityFrames * channels;
      var next := window.samples + samples;
      var base := window.base;
      var overflow := Max(|next| - capSamples, 0);
      AppendIsWritten(window, capacityFrames, channels, samples);
      if overflow > 0 {
        next := next[overflow..];
        base := base + overflow / channels;
      }
      window := RingSnapshot(base, next);
      return Done;
    }

    method Publish(block: AudioBlock) returns (r: Outcome)
      requires Valid()
      modifies this`window
      ensures Valid()
      ensures block.format != format ==> r == FormatMismatch && window == old(window)
      ensures block.format == format ==>
                r == Done &&
                window == Written(old(window), capacityFrames, format.Channels(),
                                  old(window).HeadFrame(format.Channels()), block.samples)
    {
      if block.format != format {
        return FormatMismatch;
      }
      r := PublishSamples(block.samples);
    }

    /** Writes `block` at absolute frame `at` (a reordered packet lands at its true frame). */
    method PublishAt(at: int, block: AudioBlock) returns (r: Outcome)
      requires Valid()
      modifies this`window
      ensures Valid()
      ensures block.format != format ==> r == FormatMismatch && window == old(window)
      ensures block.format == format ==>
                r == Done &&
                window == if block.Frames() == 0 then old(window)
                          else Written(old(window), capacityFrames, format.Channels(), Max(at, 0), block.samples)
    {
      if block.format != format {
        return FormatMismatch;
      }
      hide Written;
      var channels := format.Channels();
      var incoming := block.samples;
      var incomingFrames := |incoming| / channels;
      if incomingFrames == 0 {
        return Done;
      }
      var place := Max(at, 0);
      var blockEnd := place + incomingFrames;
      var oldHead := window.HeadFrame(channels);
      var unionBase := Min(window.base, place);
      var newHead := Max(oldHead, blockEnd);
      var newBase := Max(unionBase, newHead - capacityFrames);
      var spanFrames := newHead - newBase;
      WholeFrames(spanFrames, channels);
      var merged := new real[spanFrames * channels](_ => 0.0);
      OverlayFrom(merged, window.samples, window.base, newBase, channels);
      OverlayFrom(merged, incoming, place, newBase, channels);
      WrittenIs(window, capacityFrames, channels, place, incoming, newBase, merged[..]);
      window := RingSnapshot(newBase, merged[..]);
      return Done;
    }

    /** Replaces the window by exactly `samples` placed at `base`. */
    method PublishWindow(base: int, samples: seq<real>) returns (r: Outcome)
      requires Valid()
      modifies this`window
      ensures Valid()
      ensures r == if |samples| % format.Channels() != 0 then RaggedBlock(|samples|, format.Channels()) else Done
      ensures window == if r == Done then RingSnapshot(base, samples) else old(window)
    {
      var channels := format.Channels();
      if |samples| % channels != 0 {
        return RaggedBlock(|samples|, channels);
      }
      window := RingSnapshot(base, samples);
      return Done;
    }

    /** Samples exactly `frames` frames at the cursor and advances it: never short, silence
        wherever the window does not reach. */
    method Read(frames: nat) returns (block: AudioBlock)
      requires Valid()
      modifies this`readFrame
      ensures readFrame == old(readFrame) + frames
      ensures block.format == format
      ensures block.samples == window.Slice(format.Channels(), old(readFrame), frames)
    {
      var channels := format.Channels();
      var start := readFrame;
      readFrame := start + frames;
      WholeFrames(frames, channels);
      var out := new real[frames * channels](_ => 0.0);
      var base := window.base;
      var head := window.HeadFrame(channels);
      var copyFrom := Max(start, base);
      var copyTo := Min(start + frames, head);
      OverlapOnSampleAxis(window, channels, start, frames, copyFrom, copyTo);
      if copyTo > copyFrom {
        var dstOff := (copyFrom - start) * channels;
        var srcOff := (copyFrom - base) * channels;
        var run := (copyTo - copyFrom) * channels;
        forall k | 0 <= k < run {
          out[dstOff + k] := window.samples[srcOff + k];
        }
        assert forall k | dstOff <= k < dstOff + run :: out[k] == window.samples[k - dstOff + srcOff] by {
          forall k | dstOff <= k < dstOff + run ensures out[k] == window.samples[k - dstOff + srcOff] {
            assert out[dstOff + (k - dstOff)] == window.samples[srcOff + (k - dstOff)];
          }
        }
      }
      forall k | 0 <= k < out.Length
        ensures out[k] == window.At(channels, start * channels + k)
      {
        assert window.Holds(channels, start * channels + k)
          <==> copyFrom < copyTo && copyFrom * channels <= start * channels + k < copyTo * channels;
      }
      assert out[..] == window.Slice(channels, start, frames);
      block := PcmData(format, out[..]);
    }
  }

  /** What overflows the capacity is whole frames. */
  lemma Overflow(len: nat, capacity: nat, channels: nat) returns (dropped: nat)
    requires channels > 0 && len % channels == 0
    ensures capacity * channels >= 0 && dropped == Max(len / channels - capacity, 0)
    ensures 0 <= dropped * channels == Max(len - capacity * channels, 0) <= len
    ensures (len - dropped * channels) % channels == 0
    ensures len - dropped * channels == (len / channels - dropped) * channels
    ensures dropped * channels / channels == dropped
  {
    var frames := len / channels;
    dropped := Max(frames - capacity, 0);
    FrameCount(len, channels);
    WholeFrames(capacity, channels);
    ScaleStrict(capacity, frames, channels);
    Distribute(frames, capacity, channels);
    WholeFrames(dropped, channels);
    Distribute(frames, dropped, channels);
    WholeFrames(frames - dropped, channels);
  }

  /** Appending and draining the overflow is writing at the head. */
  lemma AppendIsWritten(w: RingSnapshot, capacity: nat, channels: nat, samples: seq<real>)
    requires channels > 0 && |w.samples| % channels == 0 && |samples| % channels == 0
    ensures capacity * channels >= 0
    ensures var overflow := Max(|w.samples + samples| - capacity * channels, 0);
            && overflow <= |w.samples + samples|
            && (|w.samples + samples| - overflow) % channels == 0
            && Written(w, capacity, channels, w.HeadFrame(channels), samples)
               == RingSnapshot(w.base + overflow / channels, (w.samples + samples)[overflow..])
  {
    var next := w.samples + samples;
    WholeSum(|w.samples|, |samples|, channels);
    var dropped := Overflow(|next|, capacity, channels);
    var overflow := dropped * channels;
    var r := Written(w, capacity, channels, w.HeadFrame(channels), samples);
    assert r.base == w.base + dropped;
    assert |r.samples| == |next| - overflow;
    Distribute(w.base, dropped, channels);
    FrameCount(|w.samples|, channels);
    Distribute(w.base, |w.samples| / channels, channels);
    forall k | 0 <= k < |r.samples|
      ensures r.samples[k] == next[overflow + k]
    {
      var s := r.base * channels + k;
      assert r.samples[k] == Overlay(w, channels, w.HeadFrame(channels), samples, s);
      assert s - w.base * channels == overflow + k;
    }
  }

  /** The overlap of a read with the window, moved from the frame to the sample axis. */
  lemma OverlapOnSampleAxis(w: RingSnapshot, channels: nat, start: int, frames: nat, copyFrom: int, copyTo: int)
    requires channels > 0 && |w.samples| % channels == 0
    requires copyFrom == Max(start, w.base) && copyTo == Min(start + frames, w.HeadFrame(channels))
    ensures forall s | start * channels <= s < start * channels + frames * channels ::
              w.Holds(channels, s) <==> copyFrom < copyTo && copyFrom * channels <= s < copyTo * channels
    ensures (copyFrom - start) * channels == copyFrom * channels - start * channels
    ensures (copyFrom - w.base) * channels == copyFrom * channels - w.base * channels
    ensures (copyTo - copyFrom) * channels == copyTo * channels - copyFrom * channels
    ensures copyFrom < copyTo ==>
              && start * channels <= copyFrom * channels <= copyTo * channels <= start * channels + frames * channels
              && w.base * channels <= copyFrom * channels
              && copyTo * channels <= w.base * channels + |w.samples|
  {
    FrameCount(|w.samples|, channels);
    var n := |w.samples| / channels;
    Distribute(copyFrom, start, channels);
    Distribute(copyFrom, w.base, channels);
    Distribute(copyTo, copyFrom, channels);
    Distribute(w.base, n, channels);
    Distribute(start, frames, channels);
    ScaleStrict(copyFrom, copyTo, channels);
    ScaleStrict(start, w.base, channels);
    ScaleStrict(start + frames, w.base + n, channels);
    ScaleStrict(w.base + n, start, channels);
    ScaleStrict(start + frames, w.base, channels);
  }
}
