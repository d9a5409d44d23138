/** The media player's loop deck: a decoded segment replayed as an overlap-add loop, its
    output a function of the absolute frame and of the transport state. */
module LoopDeck {
  import opened Audio
  import opened Mixer

  const DEFAULT_CROSSFADE_FRAMES: nat := 480
  const MAX_LOOP_SECONDS: nat := 600
  const SAMPLE_RATE: nat := 48_000
  const SHORTFALL_TOLERANCE_FRAMES: nat := 64
  const CORRELATION_THRESHOLD: real := 0.5
  // 2^-52
  const EPSILON: real := 1.0 / 4_503_599_627_370_496.0

  /** The mathematics the deck uses: the fade tapers and the seam correlation's root. */
  datatype SeamMath = SeamMath(trig: Trig, sqrt: real -> real) {
    ghost predicate Lawful() {
      trig.Pythagorean() && forall x | x >= 0.0 :: sqrt(x) >= 0.0 && sqrt(x) * sqrt(x) == x
    }
  }

  // ---- the recorded loop ---------------------------------------------------------

  /** A primed loop: `loopFrames` frames of body and the `xfade`-frame seam played over
      its head.  The empty tape is silent. */
  datatype Tape = Tape(format: AudioFormat, body: seq<real>, seam: seq<real>, loopFrames: nat, xfade: nat) {
    function C(): nat {
      format.Channels()
    }

    predicate Sound() {
      && |body| == loopFrames * C()
      && |seam| == xfade * C()
      && xfade <= loopFrames / 2
    }
  }

  function EmptyTape(format: AudioFormat): (t: Tape)
    ensures t.Sound() && t.loopFrames == 0
  {
    Tape(format, [], [], 0, 0)
  }

  // ---- transport -------------------------------------------------------------------

  datatype DeckState = Idle | Vamping(exitArmed: bool) | Paused | Exiting(exitSeam: nat)

  /** `phase` is the absolute frame that maps to lap position zero; `recue` says a stop is
      waiting to re-anchor it; `cursor` is the high-water mark of reads. */
  datatype Transport = Transport(state: DeckState, cursor: nat, phase: nat, recue: bool) {
    function Vamp(): Transport {
      this.(state := Vamping(false))
    }

    function Pause(): Transport {
      this.(state := Paused)
    }

    function Stop(): Transport {
      Transport(Idle, 0, phase, true)
    }

    /** Commits a fade-out at the next lap boundary strictly after `anchor`. */
    function ArmExitAt(loopFrames: nat, anchor: nat): Transport {
      if !state.Vamping? then this
      else if loopFrames == 0 then this.(state := Vamping(true))
      else
        var phase' := if recue then anchor else phase;
        this.(state := Exiting(NextWrap(loopFrames, phase', anchor)), phase := phase', recue := false)
    }

    /** Withdraws an armed exit unless its boundary has already been read. */
    function CancelExit(): Transport {
      match state
      case Exiting(seam) => if cursor < seam then this.(state := Vamping(false)) else this
      case Vamping(true) => this.(state := Vamping(false))
      case _ => this
    }

    function SettleFrame(xfade: nat): Option<nat> {
      if state.Exiting? then Some(state.exitSeam + xfade) else None
    }

    predicate Audible(loopFrames: nat) {
      loopFrames > 0 && !state.Idle? && !state.Paused?
    }

    /** The transport after `frames` frames are read at `abs`: the high-water mark moves,
        and a pending re-cue anchors the loop at the first vamping read. */
    function AfterRead(loopFrames: nat, abs: nat, frames: nat): Transport {
      var read := this.(cursor := Max(cursor, abs + frames));
      if Audible(loopFrames) && recue && state.Vamping? then read.(phase := abs, recue := false) else read
    }
  }

  /** `phase + (floor((anchor - phase) / L) + 1) * L`. */
  function NextWrap(loopFrames: nat, phase: nat, anchor: nat): (w: nat)
    requires loopFrames > 0
  {
    var laps := Max(anchor - phase, 0) / loopFrames + 1;
    ScaleMono(0, laps, loopFrames);
    phase + laps * loopFrames
  }

  // ---- the deck as a function of the frame -----------------------------------------------

  /** The in-lap position of absolute frame `f`; frames before the phase sit at zero. */
  function LapFrame(loopFrames: nat, phase: nat, f: nat): (m: nat)
    requires loopFrames > 0
    ensures m < loopFrames
  {
    Max(f - phase, 0) % loopFrames
  }

  lemma FrameInside(m: nat, c: nat, frames: nat, channels: nat)
    requires m < frames && c < channels
    ensures 0 <= m * channels && m * channels + c < frames * channels
  {
    ScaleMono(m + 1, frames, channels);
    Distribute(m, 1, channels);
  }

  /** Channel `c` of in-lap frame `m`: the seam over the head, the body after it. */
  function LapSample(tape: Tape, m: nat, c: nat): real
    requires tape.Sound() && m < tape.loopFrames && c < tape.C()
  {
    FrameInside(m, c, tape.loopFrames, tape.C());
    if m < tape.xfade then
      FrameInside(m, c, tape.xfade, tape.C());
      tape.seam[m * tape.C() + c]
    else tape.body[m * tape.C() + c]
  }

  /** How far through its tail an exit is at frame `j` of `xfade`. */
  function ExitPhase(j: nat, xfade: nat): real
    requires xfade > 0
  {
    (Min(j, MAX_U32) as real * 2.0 + 1.0) / (2.0 * Min(xfade, MAX_U32) as real)
  }

  /** The cosine tail of an exit: frame `j` of `xfade`. */
  function ExitGain(trig: Trig, j: nat, xfade: nat): real {
    if xfade == 0 then 0.0 else
      trig.cos(Scale(ExitPhase(j, xfade), trig.halfPi))
  }

  function Faded(gain: Option<real>, s: real): real {
    match gain
    case None => s
    case Some(g) => ClampUnit(Scale(g, s))
  }

  /** What the deck plays on channel `c` of absolute frame `f`. */
  function DeckSample(trig: Trig, tape: Tape, t: Transport, f: nat, c: nat): real
    requires tape.Sound() && c < tape.C()
  {
    if !t.Audible(tape.loopFrames) then 0.0 else
      var s := LapSample(tape, LapFrame(tape.loopFrames, t.phase, f), c);
      if !t.state.Exiting? || f < t.state.exitSeam then s
      else if f < t.state.exitSeam + tape.xfade then
        Faded(Some(ExitGain(trig, f - t.state.exitSeam, tape.xfade)), s)
      else 0.0
  }

  /** The deck's output over `frames` frames from `abs`, interleaved. */
  function DeckSlice(trig: Trig, tape: Tape, t: Transport, abs: nat, frames: nat): (r: seq<real>)
    requires tape.Sound()
    ensures |r| == frames * tape.C()
  {
    WholeFrames(frames, tape.C());
    seq(frames * tape.C(), k requires 0 <= k => DeckSample(trig, tape, t, abs + k / tape.C(), k % tape.C()))
  }

  class LoopDeck {
    const trig: Trig
    const tape: Tape
    var state: DeckState
    var cursor: nat
    var phase: nat
    var needsRephase: bool

    function View(): Transport
      reads this
    {
      Transport(state, cursor, phase, needsRephase)
    }

    /** A deck over a primed tape starts looping; over the empty tape it is idle. */
    constructor (trig: Trig, tape: Tape)
      ensures this.trig == trig && this.tape == tape
      ensures View() == Transport(if tape.loopFrames == 0 then Idle else Vamping(false), 0, 0, false)
    {
      this.trig := trig;
      this.tape := tape;
      state := if tape.loopFrames == 0 then Idle else Vamping(false);
      cursor, phase, needsRephase := 0, 0, false;
    }

    method Vamp()
      modifies this
      ensures View() == old(View()).Vamp()
    {
      state := Vamping(false);
    }

    method Pause()
      modifies this
      ensures View() == old(View()).Pause()
    {
      state := Paused;
    }

    method Stop()
      modifies this
      ensures View() == old(View()).Stop()
    {
      state, cursor, needsRephase := Idle, 0, true;
    }

    method ArmExit()
      modifies this
      ensures View() == old(View()).ArmExitAt(tape.loopFrames, old(cursor))
    {
      ArmExitAt(cursor);
    }

    method ArmExitAt(anchor: nat)
      modifies this
      ensures View() == old(View()).ArmExitAt(tape.loopFrames, anchor)
    {
      if state.Vamping? {
        state := Vamping(true);
        if tape.loopFrames > 0 {
          if needsRephase {
            phase := anchor;
            needsRephase := false;
          }
          state := Exiting(NextWrap(tape.loopFrames, phase, anchor));
        }
      }
    }

    method CancelExit()
      modifies this
      ensures View() == old(View()).CancelExit()
    {
      if state.Exiting? {
        if cursor < state.exitSeam {
          state := Vamping(false);
        }
      } else if state == Vamping(true) {
        state := Vamping(false);
      }
    }

    method SeekTo(abs: nat)
      modifies this
      ensures View() == old(View()).(cursor := abs)
    {
      cursor := abs;
    }

    /** The next `frames` frames at the deck's own cursor. */
    method Read(frames: nat) returns (block: AudioBlock)
      requires tape.Sound()
      modifies this
      ensures View() == old(View()).AfterRead(tape.loopFrames, old(cursor), frames).(cursor := old(cursor) + frames)
      ensures block.format == tape.format
      ensures block.samples == DeckSlice(trig, tape, View(), old(cursor), frames)
    {
      var at := cursor;
      block := ReadAt(at, frames);
      cursor := at + frames;
      assert DeckSlice(trig, tape, View(), at, frames) == block.samples;
    }

    method ReadAt(abs: nat, frames: nat) returns (block: AudioBlock)
      requires tape.Sound()
      modifies this
      ensures View() == old(View()).AfterRead(tape.loopFrames, abs, frames)
      ensures block.format == tape.format
      ensures block.samples == DeckSlice(trig, tape, View(), abs, frames)
    {
      WholeFrames(frames, tape.C());
      var out := new real[frames * tape.C()](_ => 0.0);
      Fill(abs, frames, out);
      block := PcmData(tape.format, out[..]);
    }

    /** The hot path's read: the same samples, as the caller's scratch buffer. */
    method ReadInto(abs: nat, frames: nat) returns (out: seq<real>)
      requires tape.Sound()
      modifies this
      ensures View() == old(View()).AfterRead(tape.loopFrames, abs, frames)
      ensures out == DeckSlice(trig, tape, View(), abs, frames)
    {
      WholeFrames(frames, tape.C());
      var scratch := new real[frames * tape.C()](_ => 0.0);
      Fill(abs, frames, scratch);
      out := scratch[..];
    }

    /** Fills zeroed `out` with the deck's frames from `abs` on. */
    method Fill(abs: nat, frames: nat, out: array<real>)
      requires tape.Sound() && out.Length == frames * tape.C()
      requires forall k | 0 <= k < out.Length :: out[k] == 0.0
      modifies this, out
      ensures View() == old(View()).AfterRead(tape.loopFrames, abs, frames)
      ensures out[..] == DeckSlice(trig, tape, View(), abs, frames)
    {
      var channels := tape.C();
      cursor := Max(cursor, abs + frames);
      if tape.loopFrames == 0 || state.Idle? || state.Paused? {
        return;
      }
      if needsRephase && state.Vamping? {
        phase := abs;
        needsRephase := false;
      }
      ghost var t := View();
      ghost var want := DeckSlice(trig, tape, t, abs, frames);
      for f := 0 to frames
        invariant View() == t
        invariant forall k | 0 <= k < out.Length :: out[k] == if k < f * channels then want[k] else 0.0
      {
        FrameWants(trig, tape, t, abs, frames, f);
        Distribute(f, 1, channels);
        FillFrame(abs + f, f, out);
      }
    }

    /** Writes what the deck plays at absolute frame `abs` into output frame `f`. */
    method FillFrame(abs: nat, f: nat, out: array<real>)
      requires tape.Sound() && View().Audible(tape.loopFrames)
      requires f * tape.C() + tape.C() <= out.Length
      requires forall k | f * tape.C() <= k < f * tape.C() + tape.C() :: out[k] == 0.0
      modifies out
      ensures forall k | 0 <= k < out.Length ::
                out[k] == if f * tape.C() <= k < f * tape.C() + tape.C()
                          then DeckSample(trig, tape, View(), abs, k - f * tape.C()) else old(out[k])
    {
      var m := LapFrame(tape.loopFrames, phase, abs);
      if state.Exiting? && abs >= state.exitSeam + tape.xfade {
        // past the exit: silence
      } else if state.Exiting? && abs >= state.exitSeam {
        WriteLoopFrame(out, f, m, Some(ExitGain(trig, abs - state.exitSeam, tape.xfade)));
      } else {
        WriteLoopFrame(out, f, m, None);
      }
    }

    /** Writes in-lap frame `m` into output frame `f`, scaled by `gain` if there is one. */
    method WriteLoopFrame(out: array<real>, f: nat, m: nat, gain: Option<real>)
      requires tape.Sound() && m < tape.loopFrames
      requires f * tape.C() + tape.C() <= out.Length
      modifies out
      ensures forall k | 0 <= k < out.Length ::
                out[k] == if f * tape.C() <= k < f * tape.C() + tape.C()
                          then Faded(gain, LapSample(tape, m, k - f * tape.C())) else old(out[k])
    {
      var channels := tape.C();
      var off := f * channels;
      for c := 0 to channels
        invariant forall k | 0 <= k < out.Length ::
                    out[k] == if off <= k < off + c then Faded(gain, LapSample(tape, m, k - off)) else old(out[k])
      {
        out[off + c] := Faded(gain, LapSample(tape, m, c));
      }
    }
  }

  /** The samples of output frame `f` are the deck's at absolute frame `abs + f`. */
  lemma FrameWants(trig: Trig, tape: Tape, t: Transport, abs: nat, frames: nat, f: nat)
    requires tape.Sound() && f < frames
    ensures f * tape.C() + tape.C() <= frames * tape.C()
    ensures forall k | f * tape.C() <= k < f * tape.C() + tape.C() ::
              DeckSlice(trig, tape, t, abs, frames)[k] == DeckSample(trig, tape, t, abs + f, k - f * tape.C())
  {
    Distribute(f, 1, tape.C());
    ScaleMono(f + 1, frames, tape.C());
    forall k | f * tape.C() <= k < f * tape.C() + tape.C()
      ensures DeckSlice(trig, tape, t, abs, frames)[k] == DeckSample(trig, tape, t, abs + f, k - f * tape.C())
    {
      QuotientUnique(k, tape.C(), f, k - f * tape.C());
    }
  }
}
