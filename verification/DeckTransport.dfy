/** What the deck's transport verbs do to what is heard: arming, cancelling, stopping. */
module DeckTransport {
  import opened Audio
  import opened Mixer
  import opened LoopDeck
  import opened DeckTheorems

  // ---- arming -----------------------------------------------------------------------------------

  /** Only a vamping deck arms: a paused, stopped or already exiting one is left as it is. */
  lemma ArmingNeedsVamping(tape: Tape, t: Transport, anchor: nat)
    requires !t.state.Vamping?
    ensures t.ArmExitAt(tape.loopFrames, anchor) == t
  {}

  /** Armed while a re-cue is pending, the lap starts at the anchor and runs once: whatever reads
      follow, it is heard from its first frame, fades over the next lap's, and is silent from there. */
  lemma ArmedRecuePlaysOnce(trig: Trig, tape: Tape, t: Transport, anchor: nat, run: seq<Access>, m: nat, c: nat)
    requires tape.Sound() && c < tape.C() && tape.loopFrames > 0 && t.state.Vamping? && t.recue && tape.xfade <= MAX_U32
    ensures var heard := DeckSample(trig, tape, AfterAll(tape, t.ArmExitAt(tape.loopFrames, anchor), run), anchor + m, c);
            var L := tape.loopFrames;
            && (m < L ==> heard == LapSample(tape, m, c))
            && (L <= m < L + tape.xfade ==>
                  heard == ClampUnit(Scale(trig.cos(TailAngle(trig, m - L, tape.xfade)), LapSample(tape, m - L, c))))
            && (m >= L + tape.xfade ==> heard == 0.0)
  {
    var armed := t.ArmExitAt(tape.loopFrames, anchor);
    assert armed == Transport(Exiting(anchor + tape.loopFrames), t.cursor, anchor, false);
    ReadsKeepState(tape, armed, run);
    OneLapOut(trig, tape, AfterAll(tape, armed, run), m, c);
    hide LapSample, AfterAll, DeckSample, TailAngle;
  }

  lemma OneLapOut(trig: Trig, tape: Tape, t: Transport, m: nat, c: nat)
    requires tape.Sound() && c < tape.C() && tape.loopFrames > 0 && tape.xfade <= MAX_U32
    requires t.state == Exiting(t.phase + tape.loopFrames)
    ensures var heard, L := DeckSample(trig, tape, t, t.phase + m, c), tape.loopFrames;
            && (m < L ==> heard == LapSample(tape, m, c))
            && (L <= m < L + tape.xfade ==>
                  heard == ClampUnit(Scale(trig.cos(TailAngle(trig, m - L, tape.xfade)), LapSample(tape, m - L, c))))
            && (m >= L + tape.xfade ==> heard == 0.0)
  {
    hide LapSample, Scale, ClampUnit;
    var L := tape.loopFrames;
    if m < L {
      QuotientUnique(m, L, 0, m);
      assert LapFrame(L, t.phase, t.phase + m) == m;
    } else if m < L + tape.xfade {
      SameAngle(m - L, tape.xfade);
      LapWraps(L, t.phase, m);
      assert ExitGain(trig, m - L, tape.xfade) == trig.cos(TailAngle(trig, m - L, tape.xfade));
    }
  }

  lemma LapWraps(loopFrames: nat, phase: nat, m: nat)
    requires 0 < loopFrames <= m < 2 * loopFrames
    ensures LapFrame(loopFrames, phase, phase + m) == m - loopFrames
  {
    QuotientUnique(m, loopFrames, 1, m - loopFrames);
  }

  // ---- cancelling ---------------------------------------------------------------------------------

  /** Reads at absolute frames, as the fill loop makes them. */
  predicate OnlyReadsAt(run: seq<Access>) {
    forall i | 0 <= i < |run| :: run[i].ReadAt?
  }

  /** The high-water mark is the furthest frame read, if that is further than it was. */
  lemma {:induction false} MarkIsFurthestRead(tape: Tape, t: Transport, run: seq<Access>)
    requires OnlyReadsAt(run)
    ensures var mark := AfterAll(tape, t, run).cursor;
            && mark >= t.cursor && (forall i | 0 <= i < |run| :: mark >= run[i].abs + run[i].frames)
            && (mark == t.cursor || exists i :: 0 <= i < |run| && mark == run[i].abs + run[i].frames)
    decreases |run|
  {
    if run == [] {
    } else {
      var next := DeckTheorems.After(tape, t, run[0]);
      assert next.cursor == Max(t.cursor, run[0].abs + run[0].frames);
      MarkIsFurthestRead(tape, next, run[1..]);
      var mark := AfterAll(tape, t, run).cursor;
      forall i | 0 <= i < |run|
        ensures mark >= run[i].abs + run[i].frames
      {
        if i > 0 {
          assert run[1..][i - 1] == run[i];
        }
      }
      if j :| 0 <= j < |run[1..]| && mark == run[1..][j].abs + run[1..][j].frames {
        assert run[j + 1] == run[1..][j];
      } else if mark != t.cursor {
        assert mark == run[0].abs + run[0].frames;
      }
    }
  }

  /** An armed exit is withdrawn exactly when nothing has been read up to its seam: then every
      frame is as if it had never been armed, and otherwise it stands. */
  lemma CancelWinsIff(trig: Trig, tape: Tape, t: Transport, anchor: nat, run: seq<Access>)
    requires tape.Sound() && tape.loopFrames > 0 && t.state.Vamping? && !t.recue && OnlyReadsAt(run)
    ensures var seam := NextWrap(tape.loopFrames, t.phase, anchor);
            var armed := AfterAll(tape, t.ArmExitAt(tape.loopFrames, anchor), run);
            var unread := t.cursor < seam && forall i | 0 <= i < |run| :: run[i].abs + run[i].frames < seam;
            && (armed.CancelExit().state.Vamping? <==> unread)
            && (unread ==> forall f: nat, c: nat | c < tape.C() ::
                  DeckSample(trig, tape, armed.CancelExit(), f, c) == DeckSample(trig, tape, t, f, c))
            && (!unread ==> armed.CancelExit() == armed && armed.state == Exiting(seam))
  {
    var start := t.ArmExitAt(tape.loopFrames, anchor);
    var armed := AfterAll(tape, start, run);
    ReadsKeepState(tape, start, run);
    MarkIsFurthestRead(tape, start, run);
    hide AfterAll, NextWrap, OnlyReadsAt;
    forall f: nat, c: nat | c < tape.C()
      ensures armed.cursor < NextWrap(tape.loopFrames, t.phase, anchor) ==>
                DeckSample(trig, tape, armed.CancelExit(), f, c) == DeckSample(trig, tape, t, f, c)
    {
    }
  }

  /** A cancel is said to do nothing once the seam has fired.  A realign to before the seam takes the
      mark back with it: the exit can be withdrawn again, however far had been read. */
  lemma RealignReopensCancel(trig: Trig, tape: Tape, t: Transport, seam: nat, abs: nat, f: nat, c: nat)
    requires tape.Sound() && c < tape.C() && tape.loopFrames > 0 && t.state == Exiting(seam) && t.cursor >= seam
    ensures t.CancelExit() == t
    ensures var realigned := DeckTheorems.After(tape, t, SeekTo(abs));
            && (realigned.CancelExit().state.Vamping? <==> abs < seam)
            && (abs < seam ==> DeckSample(trig, tape, realigned.CancelExit(), f, c) == DeckSample(trig, tape, t.Vamp(), f, c))
  {}

  // ---- stopping ------------------------------------------------------------------------------------

  /** After a stop and a vamp, advancing reads of any sizes play the lap over and over from its first
      frame. */
  lemma StopRewindsReads(trig: Trig, tape: Tape, t: Transport, sizes: seq<nat>, k: nat)
    requires tape.Sound() && tape.loopFrames > 0 && k < Total(sizes) * tape.C()
    ensures |ReadAll(trig, tape, t.Stop().Vamp(), sizes)| == Total(sizes) * tape.C()
    ensures k / tape.C() >= 0
    ensures ReadAll(trig, tape, t.Stop().Vamp(), sizes)[k] == LapSample(tape, (k / tape.C()) % tape.loopFrames, k % tape.C())
  {
    var cued := t.Stop().Vamp();
    assert sizes != [];
    var first := DeckTheorems.After(tape, cued, DeckTheorems.Read(sizes[0]));
    assert first == Transport(Vamping(false), sizes[0], 0, false);
    ChunksAreOneRead(trig, tape, first, sizes[1..]);
    SlicesJoin(trig, tape, first, first, 0, sizes[0], Total(sizes[1..]));
    assert ReadAll(trig, tape, cued, sizes) == DeckSlice(trig, tape, first, 0, Total(sizes));
  }
}
