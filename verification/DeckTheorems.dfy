/** What the loop deck promises over any way of reading it and any exit. */
module DeckTheorems {
  import opened Audio
  import opened Mixer
  import opened LoopDeck

  // ---- reads are pointwise -------------------------------------------------------------

  /** One read or realign of a deck. */
  datatype Access = ReadAt(abs: nat, frames: nat) | Read(frames: nat) | SeekTo(abs: nat)

  /** The transport an access leaves, as the deck's methods state it. */
  function After(tape: Tape, t: Transport, a: Access): Transport {
    match a
    case ReadAt(abs, n) => t.AfterRead(tape.loopFrames, abs, n)
    case Read(n) => t.AfterRead(tape.loopFrames, t.cursor, n).(cursor := t.cursor + n)
    case SeekTo(abs) => t.(cursor := abs)
  }

  function AfterAll(tape: Tape, t: Transport, run: seq<Access>): Transport
    decreases |run|
  {
    if run == [] then t else AfterAll(tape, After(tape, t, run[0]), run[1..])
  }

  /** With no re-cue pending, nothing a reader does changes what any frame sounds like: the
      deck is one function of the absolute frame, however it is chunked or realigned. */
  lemma {:induction false} ReadsArePointwise(trig: Trig, tape: Tape, t: Transport, run: seq<Access>, f: nat, c: nat)
    requires tape.Sound() && c < tape.C() && !t.recue
    ensures !AfterAll(tape, t, run).recue
    ensures DeckSample(trig, tape, AfterAll(tape, t, run), f, c) == DeckSample(trig, tape, t, f, c)
    decreases |run|
  {
    if run == [] {
    } else {
      ReadsArePointwise(trig, tape, After(tape, t, run[0]), run[1..], f, c);
    }
  }

  /** The frames of a run of advancing reads, end to end. */
  function ReadAll(trig: Trig, tape: Tape, t: Transport, sizes: seq<nat>): seq<real>
    requires tape.Sound()
    decreases |sizes|
  {
    if sizes == [] then [] else
      var after := After(tape, t, Read(sizes[0]));
      DeckSlice(trig, tape, after, t.cursor, sizes[0]) + ReadAll(trig, tape, after, sizes[1..])
  }

  function Total(sizes: seq<nat>): nat {
    if sizes == [] then 0 else sizes[0] + Total(sizes[1..])
  }

  lemma SlicesJoin(trig: Trig, tape: Tape, t: Transport, u: Transport, abs: nat, n: nat, m: nat)
    requires tape.Sound() && t.state == u.state && t.phase == u.phase
    ensures DeckSlice(trig, tape, t, abs, n) + DeckSlice(trig, tape, u, abs + n, m) == DeckSlice(trig, tape, t, abs, n + m)
  {
    var C := tape.C();
    var a, b := DeckSlice(trig, tape, t, abs, n), DeckSlice(trig, tape, u, abs + n, m);
    var whole := DeckSlice(trig, tape, t, abs, n + m);
    Distribute(n, m, C);
    forall k | 0 <= k < |whole|
      ensures (a + b)[k] == whole[k]
    {
      if k >= n * C {
        SplitOffset(n, k - n * C, C);
      }
    }
  }

  lemma SameSlice(trig: Trig, tape: Tape, t: Transport, u: Transport, abs: nat, n: nat)
    requires tape.Sound() && t.state == u.state && t.phase == u.phase
    ensures DeckSlice(trig, tape, t, abs, n) == DeckSlice(trig, tape, u, abs, n)
  {}

  /** Chunking does not matter: any run of reads from the cursor is one read. */
  lemma {:induction false} ChunksAreOneRead(trig: Trig, tape: Tape, t: Transport, sizes: seq<nat>)
    requires tape.Sound() && !t.recue
    ensures ReadAll(trig, tape, t, sizes) == DeckSlice(trig, tape, t, t.cursor, Total(sizes))
    decreases |sizes|
  {
    hide DeckSlice;
    if sizes == [] {
      assert Total(sizes) * tape.C() == 0;
    } else {
      var after := After(tape, t, Read(sizes[0]));
      ChunksAreOneRead(trig, tape, after, sizes[1..]);
      SlicesJoin(trig, tape, after, after, t.cursor, sizes[0], Total(sizes[1..]));
      SameSlice(trig, tape, t, after, t.cursor, Total(sizes));
    }
  }

  /** While vamping the output repeats with period L from the phase on. */
  lemma VampIsPeriodic(trig: Trig, tape: Tape, t: Transport, f: nat, laps: nat, c: nat)
    requires tape.Sound() && c < tape.C() && tape.loopFrames > 0 && t.state.Vamping? && f >= t.phase
    ensures laps * tape.loopFrames >= 0
    ensures DeckSample(trig, tape, t, f + laps * tape.loopFrames, c) == DeckSample(trig, tape, t, f, c)
  {
    WholeFrames(laps, tape.loopFrames);
    SplitOffset(laps, f - t.phase, tape.loopFrames);
  }

  /** A stop re-cues: the first vamping read after it plays the loop from its very head. */
  lemma RecueStartsAtHead(trig: Trig, tape: Tape, t: Transport, abs: nat, frames: nat, c: nat)
    requires tape.Sound() && c < tape.C() && tape.loopFrames > 0
    ensures DeckSample(trig, tape, t.Stop().Vamp().AfterRead(tape.loopFrames, abs, frames), abs, c) == LapSample(tape, 0, c)
  {
    var cued := t.Stop().Vamp().AfterRead(tape.loopFrames, abs, frames);
    assert cued.Audible(tape.loopFrames) && cued.state.Vamping? && cued.phase == abs;
    PhaseIsHead(tape.loopFrames, abs);
    hide LapSample, LapFrame, Transport.AfterRead, Transport.Stop, Transport.Vamp;
  }

  lemma PhaseIsHead(loopFrames: nat, phase: nat)
    requires loopFrames > 0
    ensures LapFrame(loopFrames, phase, phase) == 0
  {}

  // ---- the exit ------------------------------------------------------------------------

  /** `(rel / L + 1) * L` is the least multiple of `L` above `rel`. */
  lemma LeastMultipleAbove(loopFrames: nat, rel: nat, laps: nat)
    requires loopFrames > 0
    ensures var next := (rel / loopFrames + 1) * loopFrames;
            && rel < next <= rel + loopFrames
            && (laps * loopFrames > rel ==> next <= laps * loopFrames)
  {
    var q := rel / loopFrames;
    Distribute(q, 1, loopFrames);
    if laps <= q {
      ScaleMono(laps, q, loopFrames);
    } else {
      ScaleMono(q + 1, laps, loopFrames);
    }
  }

  /** The armed seam is the least lap boundary strictly after the anchor. */
  lemma SeamIsNextBoundary(loopFrames: nat, phase: nat, anchor: nat, boundary: nat)
    requires loopFrames > 0 && anchor >= phase
    ensures var seam := NextWrap(loopFrames, phase, anchor);
            && anchor < seam <= anchor + loopFrames
            && (seam - phase) % loopFrames == 0
            && (boundary > anchor && (boundary - phase) % loopFrames == 0 ==> seam <= boundary)
  {
    var rel := anchor - phase;
    var laps := Max(boundary - phase, 0) / loopFrames;
    LeastMultipleAbove(loopFrames, rel, laps);
    WholeFrames(rel / loopFrames + 1, loopFrames);
    if boundary > anchor && (boundary - phase) % loopFrames == 0 {
      FrameCount(boundary - phase, loopFrames);
    }
  }

  /** Arming leaves every frame before the seam as it was, then fades the still-advancing
      loop, never louder than it, and is silent from the settle frame on. */
  lemma ArmedExitShape(math: SeamMath, tape: Tape, t: Transport, anchor: nat, f: nat, c: nat)
    requires math.Lawful() && tape.Sound() && c < tape.C() && tape.loopFrames > 0
    requires t.state.Vamping? && !t.recue
    ensures var armed := t.ArmExitAt(tape.loopFrames, anchor);
            var seam := NextWrap(tape.loopFrames, t.phase, anchor);
            var loop, heard := DeckSample(math.trig, tape, t, f, c), DeckSample(math.trig, tape, armed, f, c);
            && armed.SettleFrame(tape.xfade) == Some(seam + tape.xfade)
            && (f < seam ==> heard == loop)
            && (seam <= f < seam + tape.xfade ==> -Abs(loop) <= heard <= Abs(loop))
            && (f >= seam + tape.xfade ==> heard == 0.0)
  {
    hide ExitGain;
    var seam := NextWrap(tape.loopFrames, t.phase, anchor);
    if seam <= f < seam + tape.xfade {
      ExitGainIsInside(math.trig, f - seam, tape.xfade);
      ScaleShrinks(ExitGain(math.trig, f - seam, tape.xfade), DeckSample(math.trig, tape, t, f, c));
    }
  }

  lemma ExitGainIsInside(trig: Trig, j: nat, xfade: nat)
    requires trig.Pythagorean() && j < xfade
    ensures -1.0 <= ExitGain(trig, j, xfade) <= 1.0
  {
    hide ExitPhase;
    var theta := Scale(ExitPhase(j, xfade), trig.halfPi);
    assert trig.sin(theta) * trig.sin(theta) + trig.cos(theta) * trig.cos(theta) == 1.0;
    UnitSquare(trig.cos(theta), trig.sin(theta));
  }

  /** The angle of tail frame `j`: the middle of its share of the quarter turn. */
  function TailAngle(trig: Trig, j: nat, xfade: nat): real
    requires xfade > 0
  {
    Scale((2 * j + 1) as real / (2 * xfade) as real, trig.halfPi)
  }

  /** In the tail each frame of the still-advancing loop is heard at the cosine of its angle: a
      sample in the unit range exactly, a hotter one clamped to it. */
  lemma ArmedTailIsCosine(trig: Trig, tape: Tape, t: Transport, anchor: nat, j: nat, c: nat)
    requires tape.Sound() && c < tape.C() && t.state.Vamping? && !t.recue && j < tape.xfade <= MAX_U32
    ensures tape.loopFrames > 0
    ensures var f := NextWrap(tape.loopFrames, t.phase, anchor) + j;
            var loop := DeckSample(trig, tape, t, f, c);
            var heard := DeckSample(trig, tape, t.ArmExitAt(tape.loopFrames, anchor), f, c);
            var faded := Scale(trig.cos(TailAngle(trig, j, tape.xfade)), loop);
            && heard == ClampUnit(faded)
            && (trig.Pythagorean() && -1.0 <= loop <= 1.0 ==> heard == faded)
  {
    var f := NextWrap(tape.loopFrames, t.phase, anchor) + j;
    SameAngle(j, tape.xfade);
    if trig.Pythagorean() {
      var theta := TailAngle(trig, j, tape.xfade);
      assert trig.sin(theta) * trig.sin(theta) + trig.cos(theta) * trig.cos(theta) == 1.0;
      UnitSquare(trig.cos(theta), trig.sin(theta));
      ScaleShrinks(trig.cos(theta), DeckSample(trig, tape, t, f, c));
    }
  }

  lemma SameAngle(j: nat, xfade: nat)
    requires j < xfade <= MAX_U32
    ensures ExitPhase(j, xfade) == (2 * j + 1) as real / (2 * xfade) as real
  {}

  /** Where the loop holds one level, the tail falls strictly from below it, frame by frame, and
      stays above silence; and frames as far from either end carry its power between them. */
  lemma ArmedTailFallsStrictly(trig: Trig, tape: Tape, t: Transport, anchor: nat, j: nat, k: nat, c: nat)
    requires trig.Pythagorean() && trig.Quarter() && tape.Sound() && c < tape.C() && t.state.Vamping? && !t.recue
    requires j < k < tape.xfade <= MAX_U32
    requires var seam := NextWrap(tape.loopFrames, t.phase, anchor);
             0.0 < DeckSample(trig, tape, t, seam + j, c) == DeckSample(trig, tape, t, seam + k, c) <= 1.0
    ensures var seam, armed := NextWrap(tape.loopFrames, t.phase, anchor), t.ArmExitAt(tape.loopFrames, anchor);
            var level := DeckSample(trig, tape, t, seam + j, c);
            && 0.0 < DeckSample(trig, tape, armed, seam + k, c) < DeckSample(trig, tape, armed, seam + j, c) < level
            && (trig.Complements() && k == tape.xfade - 1 - j ==>
                  Square(DeckSample(trig, tape, armed, seam + j, c)) + Square(DeckSample(trig, tape, armed, seam + k, c))
                  == Square(level))
  {
    hide DeckSample, TailAngle, Transport.ArmExitAt, NextWrap, Tape.Sound;
    ArmedTailIsCosine(trig, tape, t, anchor, j, c);
    ArmedTailIsCosine(trig, tape, t, anchor, k, c);
    var level := DeckSample(trig, tape, t, NextWrap(tape.loopFrames, t.phase, anchor) + j, c);
    CosinesFall(trig, tape.xfade, j, k, level);
    if trig.Complements() && k == tape.xfade - 1 - j {
      CosinesShare(trig, tape.xfade, j, level);
    }
  }

  lemma CosinesFall(trig: Trig, xfade: nat, j: nat, k: nat, level: real)
    requires trig.Quarter() && j < k < xfade && level > 0.0
    ensures var (x, y) := (trig.cos(TailAngle(trig, j, xfade)), trig.cos(TailAngle(trig, k, xfade)));
            0.0 < Scale(y, level) < Scale(x, level) < level
  {
    AnglesGrow(trig, xfade, j, k);
    hide TailAngle;
    var (x, y) := (trig.cos(TailAngle(trig, j, xfade)), trig.cos(TailAngle(trig, k, xfade)));
    assert 0.0 < y < x < 1.0;
    StrictlyLess(y, x, level);
    StrictlyLess(x, 1.0, level);
    StrictlyLess(0.0, y, level);
  }

  lemma CosinesShare(trig: Trig, xfade: nat, j: nat, level: real)
    requires trig.Quarter() && trig.Pythagorean() && trig.Complements() && j < xfade - 1 - j
    ensures var (x, y) := (trig.cos(TailAngle(trig, j, xfade)), trig.cos(TailAngle(trig, xfade - 1 - j, xfade)));
            Square(Scale(x, level)) + Square(Scale(y, level)) == Square(level)
  {
    var x := TailAngle(trig, j, xfade);
    AnglesGrow(trig, xfade, j, xfade - 1 - j);
    AnglesComplete(trig, xfade, j);
    hide TailAngle;
    assert trig.cos(trig.halfPi - x) == trig.sin(x);
    assert trig.sin(x) * trig.sin(x) + trig.cos(x) * trig.cos(x) == 1.0;
    SquaresShare(trig.cos(x), trig.sin(x), level);
  }

  lemma SquaresShare(a: real, b: real, x: real)
    requires a * a + b * b == 1.0
    ensures Square(Scale(a, x)) + Square(Scale(b, x)) == Square(x)
  {
    assert Square(Scale(a, x)) + Square(Scale(b, x)) == (a * a + b * b) * (x * x);
  }

  lemma StrictlyLess(a: real, b: real, x: real)
    requires a < b && x > 0.0
    ensures Scale(a, x) < Scale(b, x)
  {}

  lemma AnglesGrow(trig: Trig, xfade: nat, j: nat, k: nat)
    requires trig.halfPi > 0.0 && j < k < xfade
    ensures 0.0 < TailAngle(trig, j, xfade) < TailAngle(trig, k, xfade) < trig.halfPi
  {
    var d := (2 * xfade) as real;
    PartsGrow((2 * j + 1) as real, (2 * k + 1) as real, d);
    StrictlyLess(0.0, (2 * j + 1) as real / d, trig.halfPi);
    StrictlyLess((2 * j + 1) as real / d, (2 * k + 1) as real / d, trig.halfPi);
    StrictlyLess((2 * k + 1) as real / d, 1.0, trig.halfPi);
  }

  lemma PartsGrow(a: real, b: real, d: real)
    requires 0.0 < a < b < d
    ensures 0.0 < a / d < b / d < 1.0
  {
    DivideStrictly(0.0, a, d);
    DivideStrictly(a, b, d);
    DivideStrictly(b, d, d);
    WholePart(d / d, d);
  }

  lemma WholePart(u: real, d: real)
    requires d > 0.0 && Scale(u, d) == d
    ensures u == 1.0
  {
    if u < 1.0 {
      StrictlyLess(u, 1.0, d);
    } else if u > 1.0 {
      StrictlyLess(1.0, u, d);
    }
  }

  lemma DivideStrictly(a: real, b: real, d: real)
    requires a < b && d > 0.0
    ensures a / d < b / d
  {
    var p, q := a / d, b / d;
    assert Scale(p, d) == a && Scale(q, d) == b;
    if p >= q {
      ScaleGrows(q, p, d);
      assert false;
    }
  }

  lemma AnglesComplete(trig: Trig, xfade: nat, j: nat)
    requires j < xfade
    ensures TailAngle(trig, xfade - 1 - j, xfade) == trig.halfPi - TailAngle(trig, j, xfade)
  {
    var d, a := (2 * xfade) as real, (2 * j + 1) as real;
    assert (2 * (xfade - 1 - j) + 1) as real == d - a;
    PartsComplete(a, d);
    ScaleSums(1.0, a / d, trig.halfPi);
  }

  lemma PartsComplete(a: real, d: real)
    requires d > 0.0
    ensures (d - a) / d == 1.0 - a / d
  {
    ScaleSums((d - a) / d, a / d, d);
    WholePart((d - a) / d + a / d, d);
  }

  /** The exit tail only ever falls, from at most full gain, and never turns negative. */
  lemma ExitTailFalls(trig: Trig, xfade: nat, j: nat, k: nat)
    requires trig.Quarter() && j <= k < xfade <= MAX_U32
    ensures 0.0 <= ExitGain(trig, k, xfade) <= ExitGain(trig, j, xfade) <= 1.0
  {
    PhaseGrows(xfade, j, k);
    assert Scale(0.0, trig.halfPi) == 0.0 && Scale(1.0, trig.halfPi) == trig.halfPi;
    hide ExitPhase, Scale;
    var x, y, h := ExitPhase(j, xfade), ExitPhase(k, xfade), trig.halfPi;
    ScaleGrows(0.0, x, h);
    ScaleGrows(x, y, h);
    ScaleGrows(y, 1.0, h);
    QuarterBounds(trig, Scale(x, h), Scale(y, h));
  }

  lemma PhaseGrows(xfade: nat, j: nat, k: nat)
    requires j <= k < xfade <= MAX_U32
    ensures 0.0 <= ExitPhase(j, xfade) <= ExitPhase(k, xfade) <= 1.0
  {
    var d := 2.0 * xfade as real;
    DivideGrows(0.0, j as real * 2.0 + 1.0, d);
    DivideGrows(j as real * 2.0 + 1.0, k as real * 2.0 + 1.0, d);
    DivideGrows(k as real * 2.0 + 1.0, d, d);
  }

  lemma ScaleShrinks(g: real, s: real)
    requires -1.0 <= g <= 1.0
    ensures -Abs(s) <= Scale(g, s) <= Abs(s)
    ensures -Abs(s) <= ClampUnit(Scale(g, s)) <= Abs(s)
  {
    if s >= 0.0 {
      Shrinks(g, s);
    } else {
      Shrinks(g, -s);
      assert g * (-s) == -(g * s);
    }
  }

  lemma Shrinks(g: real, a: real)
    requires -1.0 <= g <= 1.0 && a >= 0.0
    ensures -a <= g * a <= a
  {}

  /** Cancelling wins exactly while the seam has not been read: then every later frame is
      as if the exit had never been armed; once it has, the exit stands. */
  lemma CancelWinsBeforeSeam(trig: Trig, tape: Tape, t: Transport, anchor: nat, run: seq<Access>, f: nat, c: nat)
    requires tape.Sound() && c < tape.C() && tape.loopFrames > 0
    requires t.state.Vamping? && !t.recue
    ensures var armed := AfterAll(tape, t.ArmExitAt(tape.loopFrames, anchor), run);
            var seam := NextWrap(tape.loopFrames, t.phase, anchor);
            var cancelled := armed.CancelExit();
            && (armed.cursor < seam ==> DeckSample(trig, tape, cancelled, f, c) == DeckSample(trig, tape, t, f, c))
            && (armed.cursor >= seam ==> cancelled == armed)
  {
    ReadsKeepState(tape, t.ArmExitAt(tape.loopFrames, anchor), run);
  }

  lemma {:induction false} ReadsKeepState(tape: Tape, t: Transport, run: seq<Access>)
    requires !t.recue
    ensures var u := AfterAll(tape, t, run); u.state == t.state && u.phase == t.phase && !u.recue
    decreases |run|
  {
    if run == [] {
    } else {
      ReadsKeepState(tape, After(tape, t, run[0]), run[1..]);
    }
  }
}
