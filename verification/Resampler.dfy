/** The display-audio servo's streaming linear resampler: its ratio varies per block, its
    fractional read position and last frame carry over. */
module Resampler {
  import opened Audio

  const MAX_PPM: real := 5_000.0

  /** A correction in parts per million, held inside the audible-artefact band. */
  type Ppm = p: real | -MAX_PPM <= p <= MAX_PPM witness 0.0

  /** The nearest correction inside the band. */
  function FromPpm(ppm: real): Ppm {
    if ppm < -MAX_PPM then -MAX_PPM else if ppm > MAX_PPM then MAX_PPM else ppm
  }

  function FrameRatio(p: Ppm): (r: real)
    ensures 0.995 <= r <= 1.005
  {
    1.0 + p / 1_000_000.0
  }

  /** How far the read position moves per output frame. */
  function InputStep(p: Ppm): (step: real)
    ensures step * FrameRatio(p) == 1.0
    ensures 0.5 <= step
    ensures p >= 0.0 <==> step <= 1.0
  {
    Inverse(FrameRatio(p));
    1.0 / FrameRatio(p)
  }

  lemma Inverse(ratio: real)
    requires 0.995 <= ratio <= 1.005
    ensures (1.0 / ratio) * ratio == 1.0
    ensures 0.5 <= 1.0 / ratio
    ensures ratio >= 1.0 <==> 1.0 / ratio <= 1.0
  {}

  lemma Product(a: real, b: real, c: real)
    requires a <= b && c >= 0.0
    ensures a * c <= b * c
  {}

  /** `n` steps of `x`. */
  function Times(n: int, x: real): real {
    n as real * x
  }

  lemma TimesNext(n: int, x: real)
    ensures Times(n + 1, x) == Times(n, x) + x
  {}

  lemma TimesPlus(n: int, x: real)
    ensures Times(n, 1.0 + x) == n as real + Times(n, x)
  {}

  lemma TimesMono(m: int, n: int, x: real)
    requires m <= n && x >= 0.0
    ensures Times(m, x) <= Times(n, x)
  {}

  // ---- the resampled stream ---------------------------------------------------------------

  /** Channel `ch` at read origin `k`: origin `k > 0` is frame `k - 1`, origin zero repeats the
      very first frame so that the stream starts without a click. */
  function Origin(s: seq<real>, channels: nat, k: nat, ch: nat): real
    requires ch < channels && channels <= |s| && k * channels <= |s|
  {
    if k == 0 then s[ch] else
      Distribute(k, 1, channels);
      ScaleMono(1, k, channels);
      s[(k - 1) * channels + ch]
  }

  function Lerp(l: real, r: real, frac: real): real {
    l + (r - l) * frac
  }

  /** The stream read at position `pos` by linear interpolation. */
  function Interpolated(s: seq<real>, channels: nat, pos: real, ch: nat): real
    requires ch < channels && pos >= 0.0 && (pos.Floor + 1) * channels <= |s|
  {
    ScaleMono(1, pos.Floor + 1, channels);
    ScaleMono(pos.Floor, pos.Floor + 1, channels);
    Lerp(Origin(s, channels, pos.Floor, ch), Origin(s, channels, pos.Floor + 1, ch), pos - pos.Floor as real)
  }

  /** Whether every position below `limit` can be read. */
  predicate Readable(s: seq<real>, channels: nat, pos: real, limit: nat, step: real) {
    channels > 0 && pos >= 0.0 && limit * channels <= |s| && step >= 0.5
  }

  function OutFrame(s: seq<real>, channels: nat, pos: real, limit: nat): (r: seq<real>)
    requires channels > 0 && limit * channels <= |s| && 0.0 <= pos < limit as real
    ensures |r| == channels
  {
    ScaleMono(pos.Floor + 1, limit, channels);
    seq(channels, ch requires 0 <= ch < channels => Interpolated(s, channels, pos, ch))
  }

  /** The output for positions `pos`, `pos + step`, … below `limit`. */
  function Emit(s: seq<real>, channels: nat, pos: real, limit: nat, step: real): seq<real>
    requires Readable(s, channels, pos, limit, step)
    decreases (2.0 * (limit as real - pos)).Floor
  {
    if pos >= limit as real then []
    else OutFrame(s, channels, pos, limit) + Emit(s, channels, pos + step, limit, step)
  }

  /** The first position not emitted, and how many were. */
  function End(pos: real, limit: nat, step: real): real
    requires step >= 0.5
    decreases (2.0 * (limit as real - pos)).Floor
  {
    if pos >= limit as real then pos else End(pos + step, limit, step)
  }

  function Count(pos: real, limit: nat, step: real): nat
    requires step >= 0.5
    decreases (2.0 * (limit as real - pos)).Floor
  {
    if pos >= limit as real then 0 else 1 + Count(pos + step, limit, step)
  }

  lemma {:induction false} CountedSteps(pos: real, limit: nat, step: real)
    requires step >= 0.5
    ensures End(pos, limit, step) == pos + Times(Count(pos, limit, step), step)
    ensures End(pos, limit, step) >= limit as real
    ensures pos < limit as real ==> End(pos, limit, step) < limit as real + step
    decreases (2.0 * (limit as real - pos)).Floor
  {
    if pos >= limit as real {
    } else {
      CountedSteps(pos + step, limit, step);
      TimesNext(Count(pos + step, limit, step), step);
    }
  }

  lemma {:induction false} EmittedLength(s: seq<real>, channels: nat, pos: real, limit: nat, step: real)
    requires Readable(s, channels, pos, limit, step)
    ensures |Emit(s, channels, pos, limit, step)| == Count(pos, limit, step) * channels
    decreases (2.0 * (limit as real - pos)).Floor
  {
    if pos >= limit as real {
    } else {
      EmittedLength(s, channels, pos + step, limit, step);
      Distribute(1, Count(pos + step, limit, step), channels);
    }
  }

  /** What is read below `limit` does not depend on what follows it. */
  lemma {:induction false} EmitIsLocal(s: seq<real>, t: seq<real>, channels: nat, pos: real, limit: nat, step: real)
    requires Readable(s, channels, pos, limit, step)
    ensures Emit(s + t, channels, pos, limit, step) == Emit(s, channels, pos, limit, step)
    decreases (2.0 * (limit as real - pos)).Floor
  {
    if pos >= limit as real {
    } else {
      EmitIsLocal(s, t, channels, pos + step, limit, step);
      FrameIsLocal(s, t, channels, pos, limit, step);
    }
  }

  lemma FrameIsLocal(s: seq<real>, t: seq<real>, channels: nat, pos: real, limit: nat, step: real)
    requires Readable(s, channels, pos, limit, step) && pos < limit as real
    ensures OutFrame(s + t, channels, pos, limit) == OutFrame(s, channels, pos, limit)
  {
    ScaleMono(pos.Floor + 1, limit, channels);
    ScaleMono(1, pos.Floor + 1, channels);
    forall ch | 0 <= ch < channels
      ensures Interpolated(s + t, channels, pos, ch) == Interpolated(s, channels, pos, ch)
    {
      OriginIsLocal(s, t, channels, pos.Floor, ch);
      OriginIsLocal(s, t, channels, pos.Floor + 1, ch);
    }
  }

  lemma OriginIsLocal(s: seq<real>, t: seq<real>, channels: nat, k: nat, ch: nat)
    requires ch < channels && channels <= |s| && k * channels <= |s|
    ensures Origin(s + t, channels, k, ch) == Origin(s, channels, k, ch)
  {}

  /** Emission up to one limit continues seamlessly up to a later one. */
  lemma {:induction false} EmitSplits(s: seq<real>, channels: nat, pos: real, mid: nat, limit: nat, step: real)
    requires Readable(s, channels, pos, limit, step) && mid <= limit && mid * channels <= |s|
    requires End(pos, mid, step) >= 0.0
    ensures Emit(s, channels, pos, limit, step)
            == Emit(s, channels, pos, mid, step) + Emit(s, channels, End(pos, mid, step), limit, step)
    ensures End(End(pos, mid, step), limit, step) == End(pos, limit, step)
    decreases (2.0 * (mid as real - pos)).Floor
  {
    if pos >= mid as real {
    } else {
      EmitSplits(s, channels, pos + step, mid, limit, step);
    }
  }

  // ---- the resampler over blocks ---------------------------------------------------------------

  /** What one run has consumed, and how far past it the next output frame reads. */
  datatype State = State(heard: seq<real>, phase: real) {
    predicate Valid(channels: nat) {
      channels > 0 && |heard| % channels == 0 && phase >= 0.0
    }

    function Position(channels: nat): real
      requires Valid(channels)
    {
      (|heard| / channels) as real + phase
    }
  }

  function AfterBlock(st: State, channels: nat, samples: seq<real>, step: real): (r: State)
    requires st.Valid(channels) && |samples| % channels == 0 && step >= 0.5
    ensures r.Valid(channels) && r.heard == st.heard + samples
    ensures r.Position(channels) == End(st.Position(channels), |r.heard| / channels, step)
  {
    WholeSum(|st.heard|, |samples|, channels);
    var total := |st.heard + samples| / channels;
    CountedSteps(st.Position(channels), total, step);
    State(st.heard + samples, End(st.Position(channels), total, step) - total as real)
  }

  function BlockOutput(st: State, channels: nat, samples: seq<real>, step: real): seq<real>
    requires st.Valid(channels) && |samples| % channels == 0 && step >= 0.5
  {
    WholeSum(|st.heard|, |samples|, channels);
    FrameCount(|st.heard + samples|, channels);
    Emit(st.heard + samples, channels, st.Position(channels), |st.heard + samples| / channels, step)
  }

  class AdaptiveResampler {
    const format: AudioFormat
    var ppm: Ppm
    var carry: seq<real>
    var haveCarry: bool
    var phase: real
    ghost var heard: seq<real>

    /** The carry is the last frame consumed. */
    ghost predicate Valid()
      reads this
    {
      var channels := format.Channels();
      && View().Valid(channels)
      && |carry| == channels
      && (haveCarry <==> heard != [])
      && (haveCarry ==> channels <= |heard| && carry == heard[|heard| - channels..])
    }

    ghost function View(): State
      reads this
    {
      State(heard, phase)
    }

    constructor (format: AudioFormat)
      ensures Valid() && this.format == format && ppm == 0.0 && View() == State([], 0.0)
    {
      this.format := format;
      ppm, haveCarry, phase, heard := 0.0, false, 0.0, [];
      carry := Zeros(format.Channels());
    }

    method SetRatio(demand: real)
      modifies this`ppm
      ensures ppm == FromPpm(demand)
    {
      ppm := FromPpm(demand);
    }

    /** Channel `ch` at origin `origin` of the current block; origin zero is the carry. */
    function SampleAt(input: seq<real>, inFrames: nat, origin: nat, ch: nat): real
      requires |carry| == format.Channels() && ch < format.Channels()
      requires inFrames > 0 && |input| == inFrames * format.Channels()
      reads this
    {
      ScaleMono(1, inFrames, format.Channels());
      if origin == 0 then (if haveCarry then carry[ch] else input[ch]) else
        var frame := Min(origin - 1, inFrames - 1);
        ScaleMono(0, frame, format.Channels());
        ScaleMono(frame + 1, inFrames, format.Channels());
        Distribute(frame, 1, format.Channels());
        input[frame * format.Channels() + ch]
    }

    /** Resamples one block; a block of another format comes back unchanged. */
    method Process(block: AudioBlock) returns (out: AudioBlock)
      requires Valid()
      modifies this
      ensures Valid() && ppm == old(ppm)
      ensures out.format == block.format
      ensures block.format != format ==> out == block && View() == old(View())
      ensures block.format == format ==>
                && out.samples == BlockOutput(old(View()), format.Channels(), block.samples, InputStep(ppm))
                && View() == AfterBlock(old(View()), format.Channels(), block.samples, InputStep(ppm))
    {
      hide Emit, End, InputStep, AfterBlock, BlockOutput, Readable, State.Position;
      var channels := format.Channels();
      if block.format != format {
        return block;
      }
      var input := block.samples;
      var inFrames := |input| / channels;
      FrameCount(|input|, channels);
      if inFrames == 0 {
        NothingFed(View(), channels, InputStep(ppm));
        assert input == [];
        return Silence(format, 0);
      }
      ghost var before := |heard| / channels;
      FrameCount(|heard|, channels);
      BlockInFrames(View(), channels, input, before, inFrames, InputStep(ppm));
      var samples, pos := EmitBlock(input, inFrames, before);
      carry := LastFrame(input, inFrames);
      haveCarry := true;
      phase := if pos - inFrames as real > 0.0 then pos - inFrames as real else 0.0;
      heard := heard + input;
      out := PcmData(format, samples);
    }

    /** The last frame of the block, read as the source reads it. */
    method LastFrame(input: seq<real>, inFrames: nat) returns (next: seq<real>)
      requires |carry| == format.Channels() && inFrames > 0 && |input| == inFrames * format.Channels()
      ensures |next| == format.Channels() <= |input| && next == input[|input| - format.Channels()..]
    {
      var channels := format.Channels();
      var a := new real[channels](_ => 0.0);
      ScaleMono(1, inFrames, channels);
      for ch := 0 to channels
        invariant forall c | 0 <= c < ch :: a[c] == input[|input| - channels + c]
      {
        CarriedSample(input, inFrames, channels, ch);
        a[ch] := SampleAt(input, inFrames, inFrames, ch);
      }
      next := a[..];
    }

    /** The emission loop of one block: every position below the block's end, and the first
        one past it. */
    method EmitBlock(input: seq<real>, inFrames: nat, ghost before: nat) returns (samples: seq<real>, pos: real)
      requires Valid() && before * format.Channels() == |heard|
      requires inFrames > 0 && |input| == inFrames * format.Channels()
      ensures Readable(heard + input, format.Channels(), before as real + phase, before + inFrames, InputStep(ppm))
      ensures samples == Emit(heard + input, format.Channels(), before as real + phase, before + inFrames, InputStep(ppm))
      ensures |samples| % format.Channels() == 0
      ensures before as real + pos == End(before as real + phase, before + inFrames, InputStep(ppm))
      ensures pos >= inFrames as real
    {
      hide OutFrame;
      var channels := format.Channels();
      var step := InputStep(ppm);
      ghost var stream := heard + input;
      ghost var total := before + inFrames;
      ghost var start := before as real + phase;
      Distribute(before, inFrames, channels);
      samples, pos := [], phase;
      while pos < inFrames as real
        invariant pos >= 0.0
        invariant samples + Emit(stream, channels, before as real + pos, total, step)
                  == Emit(stream, channels, start, total, step)
        invariant |samples| % channels == 0
        invariant End(before as real + pos, total, step) == End(start, total, step)
        decreases (2.0 * (inFrames as real - pos)).Floor
      {
        var frame := InterpolateFrame(input, inFrames, pos, before);
        samples := Appended(stream, channels, samples, frame, before as real + pos, total, step);
        assert before as real + (pos + step) == before as real + pos + step;
        pos := pos + step;
      }
    }

    /** Pushes one frame. */
    method Appended(ghost stream: seq<real>, channels: nat, samples: seq<real>, frame: seq<real>,
                    ghost at: real, ghost total: nat, ghost step: real) returns (r: seq<real>)
      requires Readable(stream, channels, at, total, step) && at < total as real
      requires frame == OutFrame(stream, channels, at, total) && |samples| % channels == 0
      ensures r == samples + frame && |r| % channels == 0
      ensures r + Emit(stream, channels, at + step, total, step) == samples + Emit(stream, channels, at, total, step)
      ensures End(at + step, total, step) == End(at, total, step)
    {
      hide OutFrame;
      WholeSum(|samples|, channels, channels);
      ghost var rest := Emit(stream, channels, at + step, total, step);
      assert samples + (frame + rest) == (samples + frame) + rest;
      r := samples + frame;
    }

    /** One output frame at block position `pos`. */
    method InterpolateFrame(input: seq<real>, inFrames: nat, pos: real, ghost before: nat) returns (frame: seq<real>)
      requires Valid() && before * format.Channels() == |heard|
      requires inFrames > 0 && |input| == inFrames * format.Channels() && 0.0 <= pos < inFrames as real
      ensures |heard + input| == (before + inFrames) * format.Channels()
      ensures frame == OutFrame(heard + input, format.Channels(), before as real + pos, before + inFrames)
    {
      hide Interpolated;
      var channels := format.Channels();
      ghost var stream := heard + input;
      Distribute(before, inFrames, channels);
      var leftRel := pos.Floor;
      var frac := pos - leftRel as real;
      FloorShift(before, pos);
      ScaleMono(before + leftRel + 1, before + inFrames, channels);
      var out := new real[channels](_ => 0.0);
      for ch := 0 to channels
        invariant forall c | 0 <= c < ch :: out[c] == Interpolated(stream, channels, before as real + pos, c)
      {
        var l := SampleAt(input, inFrames, leftRel, ch);
        var r := SampleAt(input, inFrames, leftRel + 1, ch);
        ReadsInterpolate(input, inFrames, pos, ch, before);
        out[ch] := Lerp(l, r, frac);
      }
      frame := out[..];
    }

    lemma ReadsInterpolate(input: seq<real>, inFrames: nat, pos: real, ch: nat, before: nat)
      requires Valid() && before * format.Channels() == |heard| && ch < format.Channels()
      requires inFrames > 0 && |input| == inFrames * format.Channels() && 0.0 <= pos < inFrames as real
      requires ((before as real + pos).Floor + 1) * format.Channels() <= |heard + input|
      ensures Interpolated(heard + input, format.Channels(), before as real + pos, ch)
              == Lerp(SampleAt(input, inFrames, pos.Floor, ch), SampleAt(input, inFrames, pos.Floor + 1, ch), pos - pos.Floor as real)
    {
      hide SampleAt, Origin, Lerp;
      FloorShift(before, pos);
      SampleIsOrigin(input, inFrames, pos.Floor, ch, before);
      SampleIsOrigin(input, inFrames, pos.Floor + 1, ch, before);
    }

    /** The block-local read is the stream's, and never clamps. */
    lemma SampleIsOrigin(input: seq<real>, inFrames: nat, origin: nat, ch: nat, before: nat)
      requires Valid() && before * format.Channels() == |heard| && ch < format.Channels()
      requires inFrames > 0 && |input| == inFrames * format.Channels() && origin <= inFrames
      ensures (before + origin) * format.Channels() <= |heard + input| && format.Channels() <= |heard + input|
      ensures SampleAt(input, inFrames, origin, ch) == Origin(heard + input, format.Channels(), before + origin, ch)
    {}
  }

  lemma FloorShift(n: int, x: real)
    ensures (n as real + x).Floor == n + x.Floor
  {}

  lemma CarriedSample(input: seq<real>, inFrames: nat, channels: nat, ch: nat)
    requires ch < channels && inFrames > 0 && |input| == inFrames * channels
    ensures 0 <= (inFrames - 1) * channels + ch < |input| && channels <= |input|
    ensures (inFrames - 1) * channels + ch == |input| - channels + ch
  {}

  /** A block's effect, with its bounds counted in frames. */
  lemma BlockInFrames(st: State, channels: nat, input: seq<real>, before: nat, inFrames: nat, step: real)
    requires st.Valid(channels) && |input| == inFrames * channels && |st.heard| == before * channels && step >= 0.5
    ensures |input| % channels == 0 && Readable(st.heard + input, channels, before as real + st.phase, before + inFrames, step)
    ensures BlockOutput(st, channels, input, step)
            == Emit(st.heard + input, channels, before as real + st.phase, before + inFrames, step)
    ensures AfterBlock(st, channels, input, step)
            == State(st.heard + input, End(before as real + st.phase, before + inFrames, step) - (before + inFrames) as real)
    ensures AfterBlock(st, channels, input, step).Valid(channels)
  {
    hide Emit, End;
    Distribute(before, inFrames, channels);
    WholeFrames(before, channels);
    WholeFrames(inFrames, channels);
    WholeFrames(before + inFrames, channels);
  }

  lemma NothingFed(st: State, channels: nat, step: real)
    requires st.Valid(channels) && step >= 0.5
    ensures AfterBlock(st, channels, [], step) == st && BlockOutput(st, channels, [], step) == []
  {}

  // ---- whole runs --------------------------------------------------------------------------------

  /** One block of whole frames, resampled at one correction. */
  datatype Feed = Feed(ppm: Ppm, samples: seq<real>)

  predicate WholeFeeds(channels: nat, run: seq<Feed>) {
    channels > 0 && forall i | 0 <= i < |run| :: |run[i].samples| % channels == 0
  }

  function Resampled(channels: nat, st: State, run: seq<Feed>): seq<real>
    requires st.Valid(channels) && WholeFeeds(channels, run)
    decreases |run|
  {
    if run == [] then [] else
      BlockOutput(st, channels, run[0].samples, InputStep(run[0].ppm))
      + Resampled(channels, AfterBlock(st, channels, run[0].samples, InputStep(run[0].ppm)), run[1..])
  }

  function AfterRun(channels: nat, st: State, run: seq<Feed>): (r: State)
    requires st.Valid(channels) && WholeFeeds(channels, run)
    ensures r.Valid(channels)
    decreases |run|
  {
    if run == [] then st else
      AfterRun(channels, AfterBlock(st, channels, run[0].samples, InputStep(run[0].ppm)), run[1..])
  }

  function Joined(run: seq<Feed>): seq<real> {
    if run == [] then [] else run[0].samples + Joined(run[1..])
  }

  lemma {:induction false} JoinedIsWhole(channels: nat, run: seq<Feed>)
    requires WholeFeeds(channels, run)
    ensures |Joined(run)| % channels == 0
    decreases |run|
  {
    if run == [] {
      QuotientUnique(0, channels, 0, 0);
    } else {
      var a, b := |run[0].samples|, |Joined(run[1..])|;
      JoinedIsWhole(channels, run[1..]);
      WholeSum(a, b, channels);
      assert |Joined(run)| == a + b;
    }
  }

  /** Chunk invariance: at one ratio, any split of the input gives the output and the state
      of feeding it whole. */
  lemma {:induction false} ChunksAreIrrelevant(channels: nat, st: State, run: seq<Feed>, p: Ppm)
    requires st.Valid(channels) && WholeFeeds(channels, run)
    requires forall i | 0 <= i < |run| :: run[i].ppm == p
    ensures |Joined(run)| % channels == 0
    ensures Resampled(channels, st, run) == BlockOutput(st, channels, Joined(run), InputStep(p))
    ensures AfterRun(channels, st, run) == AfterBlock(st, channels, Joined(run), InputStep(p))
    decreases |run|
  {
    JoinedIsWhole(channels, run);
    var step := InputStep(p);
    if run == [] {
      NothingFed(st, channels, step);
    } else {
      JoinedIsWhole(channels, run[1..]);
      var mid := AfterBlock(st, channels, run[0].samples, step);
      ChunksAreIrrelevant(channels, mid, run[1..], p);
      TwoBlocksAreOne(st, channels, run[0].samples, Joined(run[1..]), step);
    }
  }

  lemma TwoBlocksAreOne(st: State, channels: nat, a: seq<real>, b: seq<real>, step: real)
    requires st.Valid(channels) && |a| % channels == 0 && |b| % channels == 0 && step >= 0.5
    ensures |a + b| % channels == 0
    ensures var mid := AfterBlock(st, channels, a, step);
            && BlockOutput(st, channels, a, step) + BlockOutput(mid, channels, b, step)
               == BlockOutput(st, channels, a + b, step)
            && AfterBlock(mid, channels, b, step) == AfterBlock(st, channels, a + b, step)
  {
    var mid := AfterBlock(st, channels, a, step);
    var stream := st.heard + a + b;
    assert stream == st.heard + (a + b);
    WholeSum(|a|, |b|, channels);
    WholeSum(|st.heard|, |a|, channels);
    WholeSum(|st.heard + a|, |b|, channels);
    FrameCount(|st.heard + a|, channels);
    FrameCount(|stream|, channels);
    var m, n := |st.heard + a| / channels, |stream| / channels;
    EmitIsLocal(st.heard + a, b, channels, st.Position(channels), m, step);
    EmitSplits(stream, channels, st.Position(channels), m, n, step);
  }

  /** The input every emitted frame stepped over. */
  function StepsTaken(channels: nat, st: State, run: seq<Feed>): real
    requires st.Valid(channels) && WholeFeeds(channels, run)
    decreases |run|
  {
    if run == [] then 0.0 else
      var step := InputStep(run[0].ppm);
      var next := AfterBlock(st, channels, run[0].samples, step);
      Times(Count(st.Position(channels), |next.heard| / channels, step), step) + StepsTaken(channels, next, run[1..])
  }

  /** The largest step any correction of the run takes. */
  function LargestStep(run: seq<Feed>): real {
    if run == [] then 0.0 else
      var first, rest := InputStep(run[0].ppm), LargestStep(run[1..]);
      if first >= rest then first else rest
  }

  lemma BlockConserves(channels: nat, st: State, samples: seq<real>, step: real, bound: real)
    requires st.Valid(channels) && |samples| % channels == 0 && step >= 0.5
    requires st.phase < bound && step <= bound
    ensures var next := AfterBlock(st, channels, samples, step);
            && next.Position(channels)
               == st.Position(channels) + Times(Count(st.Position(channels), |next.heard| / channels, step), step)
            && |next.heard| == |st.heard| + |samples|
            && 0.0 <= next.phase < bound
  {
    hide Count, Times;
    WholeSum(|st.heard|, |samples|, channels);
    CountedSteps(st.Position(channels), |st.heard + samples| / channels, step);
  }

  /** Conservation, however the servo moves the ratio: the steps of the frames emitted are the
      frames consumed plus the phase still owed, and the phase stays below the largest step. */
  lemma {:induction false} StepsAreConserved(channels: nat, st: State, run: seq<Feed>, bound: real)
    requires st.Valid(channels) && WholeFeeds(channels, run)
    requires st.phase < bound && LargestStep(run) <= bound
    ensures AfterRun(channels, st, run).Position(channels) == st.Position(channels) + StepsTaken(channels, st, run)
    ensures |AfterRun(channels, st, run).heard| == |st.heard| + |Joined(run)|
    ensures 0.0 <= AfterRun(channels, st, run).phase < bound
    decreases |run|
  {
    if run == [] {
    } else {
      var step := InputStep(run[0].ppm);
      BlockConserves(channels, st, run[0].samples, step, bound);
      hide AfterBlock, Count, InputStep, Times;
      var next := AfterBlock(st, channels, run[0].samples, step);
      StepsAreConserved(channels, next, run[1..], bound);
      assert AfterRun(channels, st, run) == AfterRun(channels, next, run[1..]);
    }
  }

  /** At a constant ratio a fresh resampler turns `n` frames, however chunked, into exactly
      the ceiling of `n * ratio` frames. */
  lemma OutputCountIsCeiling(channels: nat, run: seq<Feed>, p: Ppm, n: nat)
    requires WholeFeeds(channels, run) && |Joined(run)| == n * channels
    requires forall i | 0 <= i < |run| :: run[i].ppm == p
    ensures var out := Resampled(channels, State([], 0.0), run);
            var frames := |out| / channels;
            && |out| == frames * channels
            && frames as real - 1.0 < n as real * FrameRatio(p) <= frames as real
  {
    hide Resampled, WholeFeeds, Joined, Count, InputStep, FrameRatio, Times;
    var k := CountedOutput(channels, run, p, n);
    CeilingOf(k, n, InputStep(p), FrameRatio(p));
  }

  /** A demand inside the band is kept, and any other becomes the nearest that is inside it. */
  lemma DemandIsNearest(demand: real, p: Ppm)
    ensures -5_000.0 <= demand <= 5_000.0 ==> FromPpm(demand) == demand
    ensures Abs(FromPpm(demand) - demand) <= Abs(p - demand)
  {}

  /** What parts per million mean: under any demand, however chunked, a million frames become a
      million and as many more, or fewer, as the demand is after the band, to the next whole one. */
  lemma MillionFrames(channels: nat, run: seq<Feed>, demand: real)
    requires WholeFeeds(channels, run) && |Joined(run)| == 1_000_000 * channels
    requires forall i | 0 <= i < |run| :: run[i].ppm == FromPpm(demand)
    ensures var held := if demand < -5_000.0 then -5_000.0 else if demand > 5_000.0 then 5_000.0 else demand;
            var frames := |Resampled(channels, State([], 0.0), run)| / channels;
            frames as real - 1.0 < 1_000_000.0 + held <= frames as real
  {
    OutputCountIsCeiling(channels, run, FromPpm(demand), 1_000_000);
    hide Resampled, WholeFeeds, Joined;
    assert 1_000_000.0 * FrameRatio(FromPpm(demand)) == 1_000_000.0 + FromPpm(demand);
  }

  /** The frames a run at one ratio emits are those one block of it would. */
  lemma CountedOutput(channels: nat, run: seq<Feed>, p: Ppm, n: nat) returns (k: nat)
    requires WholeFeeds(channels, run) && |Joined(run)| == n * channels
    requires forall i | 0 <= i < |run| :: run[i].ppm == p
    ensures |Resampled(channels, State([], 0.0), run)| == k * channels
    ensures |Resampled(channels, State([], 0.0), run)| / channels == k
    ensures n as real <= Times(k, InputStep(p)) && (if n > 0 then Times(k, InputStep(p)) < n as real + InputStep(p) else k == 0)
    ensures FrameRatio(p) > 0.0 && InputStep(p) * FrameRatio(p) == 1.0
  {
    hide Resampled, AfterRun, Emit, Count, Times;
    var step := InputStep(p);
    ChunksAreIrrelevant(channels, State([], 0.0), run, p);
    WholeOutput(channels, Joined(run), n, step);
    k := Count(0.0, n, step);
    WholeFrames(k, channels);
    CountedSteps(0.0, n, step);
    NoneFromNothing(n, step);
  }

  lemma WholeOutput(channels: nat, s: seq<real>, n: nat, step: real)
    requires channels > 0 && |s| == n * channels && step >= 0.5
    ensures |s| % channels == 0
    ensures |BlockOutput(State([], 0.0), channels, s, step)| == Count(0.0, n, step) * channels
  {
    WholeFrames(n, channels);
    assert [] + s == s;
    EmittedLength(s, channels, 0.0, n, step);
  }

  lemma NoneFromNothing(n: nat, step: real)
    requires step >= 0.5
    ensures n == 0 ==> Count(0.0, n, step) == 0
  {}

  lemma CeilingOf(k: nat, n: nat, step: real, ratio: real)
    requires ratio > 0.0 && step * ratio == 1.0
    requires n as real <= Times(k, step) && (if n > 0 then Times(k, step) < n as real + step else k == 0)
    ensures k as real - 1.0 < n as real * ratio <= k as real
  {}

  // ---- what it sounds like -----------------------------------------------------------------------

  /** The emitted frames one by one: frame `j` reads position `pos + j * step`. */
  lemma {:induction false} EmittedFrame(s: seq<real>, channels: nat, pos: real, limit: nat, step: real, j: nat, ch: nat)
    requires Readable(s, channels, pos, limit, step) && j < Count(pos, limit, step) && ch < channels
    ensures 0 <= j * channels + ch < |Emit(s, channels, pos, limit, step)|
    ensures 0.0 <= pos + Times(j, step) < limit as real
    ensures ((pos + Times(j, step)).Floor + 1) * channels <= |s|
    ensures Emit(s, channels, pos, limit, step)[j * channels + ch] == Interpolated(s, channels, pos + Times(j, step), ch)
    decreases j
  {
    hide Times, Interpolated, Count;
    if j == 0 {
      FirstFrame(s, channels, pos, limit, step, ch);
    } else {
      NextFrame(s, channels, pos, limit, step, j, ch);
      EmittedFrame(s, channels, pos + step, limit, step, j - 1, ch);
    }
  }

  lemma FirstFrame(s: seq<real>, channels: nat, pos: real, limit: nat, step: real, ch: nat)
    requires Readable(s, channels, pos, limit, step) && 0 < Count(pos, limit, step) && ch < channels
    ensures Times(0, step) == 0.0 && pos < limit as real
    ensures (pos.Floor + 1) * channels <= |s| && ch < |Emit(s, channels, pos, limit, step)|
    ensures Emit(s, channels, pos, limit, step)[ch] == Interpolated(s, channels, pos, ch)
  {
    hide Interpolated;
    ScaleMono(pos.Floor + 1, limit, channels);
    assert OutFrame(s, channels, pos, limit)[ch] == Interpolated(s, channels, pos, ch);
  }

  lemma NextFrame(s: seq<real>, channels: nat, pos: real, limit: nat, step: real, j: nat, ch: nat)
    requires Readable(s, channels, pos, limit, step) && 0 < j < Count(pos, limit, step) && ch < channels
    ensures pos < limit as real && j - 1 < Count(pos + step, limit, step)
    ensures pos + step + Times(j - 1, step) == pos + Times(j, step)
    ensures j * channels + ch - channels == (j - 1) * channels + ch
    ensures var rest := Emit(s, channels, pos + step, limit, step);
            var all := Emit(s, channels, pos, limit, step);
            |all| == channels + |rest| && all[channels..] == rest
  {
    hide OutFrame;
    TimesNext(j - 1, step);
    Distribute(j, 1, channels);
  }

  /** At a zero correction the output is the input one frame late, its first frame repeated. */
  lemma UnityIsOneFrameLate(channels: nat, s: seq<real>, j: nat, ch: nat)
    requires channels > 0 && |s| % channels == 0 && j < |s| / channels && ch < channels
    ensures |BlockOutput(State([], 0.0), channels, s, InputStep(0.0))| == |s|
    ensures 0 <= Max(j - 1, 0) * channels + ch < |s| && 0 <= j * channels + ch < |s|
    ensures BlockOutput(State([], 0.0), channels, s, InputStep(0.0))[j * channels + ch] == s[Max(j - 1, 0) * channels + ch]
  {
    hide Emit;
    var n := |s| / channels;
    FrameCount(|s|, channels);
    assert InputStep(0.0) == 1.0;
    UnityCount(0, n);
    WholeOutput(channels, s, n, 1.0);
    assert [] + s == s;
    EmittedFrame(s, channels, 0.0, n, 1.0, j, ch);
    assert Times(j, 1.0) == j as real && (j as real).Floor == j;
    WholePosition(s, channels, j, n, ch);
  }

  lemma {:induction false} UnityCount(k: nat, n: nat)
    requires k <= n
    ensures Count(k as real, n, 1.0) == n - k
    decreases n - k
  {
    if k == n {
    } else {
      UnityCount(k + 1, n);
      assert (k + 1) as real == k as real + 1.0;
    }
  }

  lemma WholePosition(s: seq<real>, channels: nat, j: nat, n: nat, ch: nat)
    requires channels > 0 && |s| == n * channels && j < n && ch < channels
    ensures (j + 1) * channels <= |s| && 0 <= Max(j - 1, 0) * channels + ch < |s| && 0 <= j * channels + ch < |s|
    ensures ((j as real).Floor + 1) * channels <= |s|
    ensures Interpolated(s, channels, j as real, ch) == s[Max(j - 1, 0) * channels + ch]
  {
    ScaleMono(j + 1, n, channels);
    Distribute(j, 1, channels);
    Distribute(j + 1, 1, channels);
    ScaleMono(1, n, channels);
    if j > 0 {
      ScaleMono(0, j - 1, channels);
      ScaleMono(j - 1, j, channels);
    }
    var l := Origin(s, channels, j, ch);
    assert Lerp(l, Origin(s, channels, j + 1, ch), 0.0) == l;
  }

  /** Interpolation draws straight lines: a channel that climbs by `b` a frame is read, at any
      position past the first frame, on that very line. */
  lemma LinesStayLines(s: seq<real>, channels: nat, pos: real, ch: nat, a: real, b: real)
    requires channels > 0 && ch < channels && 1.0 <= pos && (pos.Floor + 1) * channels <= |s|
    requires forall k: nat :: k * channels + ch < |s| ==> s[k * channels + ch] == a + Times(k, b)
    ensures Interpolated(s, channels, pos, ch) == a + b * (pos - 1.0)
  {
    var k := pos.Floor;
    ScaleMono(k, k + 1, channels);
    ScaleMono(1, k + 1, channels);
    Distribute(k, 1, channels);
    Distribute(k + 1, 1, channels);
    ScaleMono(0, k - 1, channels);
    assert s[(k - 1) * channels + ch] == a + Times(k - 1, b) && s[k * channels + ch] == a + Times(k, b);
    OnTheLine(pos, a, b);
  }

  /** Two neighbours on a line, interpolated, are on it. */
  lemma OnTheLine(pos: real, a: real, b: real)
    requires 1.0 <= pos
    ensures var k := pos.Floor; Lerp(a + Times(k - 1, b), a + Times(k, b), pos - k as real) == a + b * (pos - 1.0)
  {
    var k := pos.Floor;
    TimesNext(k - 1, b);
    assert Times(k - 1, b) == (k - 1) as real * b;
    assert Lerp(a + Times(k - 1, b), a + Times(k, b), pos - k as real) == a + Times(k - 1, b) + b * (pos - k as real);
  }

  // ---- when the phase stays below one ---------------------------------------------------------------

  /** The phase a fresh resampler holds after `n` frames. */
  function PhaseAfter(n: nat, step: real): real
    requires step >= 0.5
  {
    End(0.0, n, step) - n as real
  }

  /** The phase is always a fraction of one frame exactly when the correction does not slow
      the sound down; for a negative one some stream leaves a whole frame or more. */
  lemma PhaseIsFractionIff(p: Ppm)
    ensures (forall n: nat :: 0.0 <= PhaseAfter(n, InputStep(p)) < 1.0) <==> p >= 0.0
  {
    var step := InputStep(p);
    if p >= 0.0 {
      forall n: nat
        ensures 0.0 <= PhaseAfter(n, step) < 1.0
      {
        CountedSteps(0.0, n, step);
      }
    } else {
      var n := WholeFrameOwed(step);
      assert !(0.0 <= PhaseAfter(n, step) < 1.0);
    }
  }

  /** A step beyond one frame eventually overshoots some block end by a whole frame. */
  lemma WholeFrameOwed(step: real) returns (n: nat)
    requires step > 1.0
    ensures PhaseAfter(n, step) >= 1.0
  {
    hide Count, End, Times;
    var e := step - 1.0;
    n := CeilingReciprocal(e);
    CountedSteps(0.0, n, step);
    var k := Count(0.0, n, step);
    TimesPlus(k, e);
    TimesPlus(n, e);
    assert step == 1.0 + e;
    // reaching frame n in steps of 1 + e takes exactly n of them
    if k < n {
      TimesMono(k, n - 1, e);
    } else if k > n {
      TimesNext(n, e);
      TimesMono(n + 1, k, e);
    }
  }

  /** The least `n` with `n * e >= 1`. */
  lemma CeilingReciprocal(e: real) returns (n: nat)
    requires e > 0.0
    ensures n >= 1 && Times(n, e) >= 1.0 && Times(n - 1, e) < 1.0
  {
    hide Times;
    var q := Reciprocal(e);
    n := -(-q).Floor;
    NotBelow(n, q, e);
    Below(n - 1, q, e);
  }

  lemma Reciprocal(e: real) returns (q: real)
    requires e > 0.0
    ensures q * e == 1.0 && q > 0.0
  {
    q := 1.0 / e;
    if q <= 0.0 {
      Product(q, 0.0, e);
    }
  }

  lemma NotBelow(n: int, q: real, e: real)
    requires e > 0.0 && q * e == 1.0 && q <= n as real
    ensures Times(n, e) >= 1.0
  {}

  lemma Below(n: int, q: real, e: real)
    requires e > 0.0 && q * e == 1.0 && n as real < q
    ensures Times(n, e) < 1.0
  {}
}
