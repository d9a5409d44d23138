/** What the live-source hub gets done: every request it takes up is served, and nothing else is
    touched on the way. */
module LiveProgress {
  import opened LiveSources

  // ---- stopped producers leave ----------------------------------------------------------------------

  /** The first `n` threads with those of `which` gone. */
  function Left(threads: seq<Thread>, which: set<nat>, n: nat): (r: seq<Thread>)
    ensures |r| == |threads|
  {
    seq(|threads|, t requires 0 <= t < |threads| =>
      if t < n && t in which && !threads[t].phase.Gone? then threads[t].(phase := Gone, latch := true) else threads[t])
  }

  lemma {:induction false} RunsJoin(h: Hub, first: seq<Step>, later: seq<Step>)
    requires PatientRun(h, first) && PatientRun(After(h, first), later)
    ensures PatientRun(h, first + later) && After(h, first + later) == After(After(h, first), later)
    decreases |first|
  {
    hide Enabled, Patient, Next;
    if first == [] {
      assert first + later == later;
    } else {
      RunsJoin(Next(h, first[0]), first[1..], later);
      assert (first + later)[1..] == first[1..] + later;
    }
  }

  lemma OneStep(h: Hub, s: Step)
    requires Enabled(h, s) && Patient(h, s)
    ensures PatientRun(h, [s]) && After(h, [s]) == Next(h, s)
  {
    assert [s][1..] == [];
    hide Enabled, Patient, Next;
  }

  /** The threads of any set can leave, one after the other, by steps of their own. */
  lemma {:induction false} ThreadsCanLeave(h: Hub, which: set<nat>, n: nat) returns (run: seq<Step>)
    requires n <= |h.threads|
    ensures PatientRun(h, run) && After(h, run) == h.(threads := Left(h.threads, which, n))
    ensures forall i | 0 <= i < |run| :: run[i].Return? || run[i].DropGuard?
  {
    if n == 0 {
      run := [];
      assert Left(h.threads, which, 0) == h.threads;
    } else {
      run := ThreadsCanLeave(h, which, n - 1);
      var now := After(h, run);
      var t := n - 1;
      assert now.threads[t] == h.threads[t];
      if t in which && !h.threads[t].phase.Gone? {
        var leaving := ThreadLeaves(now, t);
        RunsJoin(h, run, leaving);
        run := run + leaving;
        assert Left(h.threads, which, n) == Left(h.threads, which, n - 1)[t := h.threads[t].(phase := Gone, latch := true)];
      } else {
        assert Left(h.threads, which, n) == Left(h.threads, which, n - 1);
      }
    }
  }

  lemma ThreadLeaves(h: Hub, t: nat) returns (run: seq<Step>)
    requires t < |h.threads| && !h.threads[t].phase.Gone?
    ensures PatientRun(h, run) && After(h, run) == h.(threads := h.threads[t := h.threads[t].(phase := Gone, latch := true)])
    ensures forall i | 0 <= i < |run| :: run[i].Return? || run[i].DropGuard?
  {
    if h.threads[t].phase.Leaving? {
      OneStep(h, DropGuard(t));
      run := [DropGuard(t)];
    } else {
      OneStep(h, Return(t));
      var left := Next(h, Return(t));
      OneStep(left, DropGuard(t));
      RunsJoin(h, [Return(t)], [DropGuard(t)]);
      run := [Return(t)] + [DropGuard(t)];
    }
  }

  // ---- a request is served ---------------------------------------------------------------------------

  /** The hub once `h`'s first request has been served: the producers of the source and of its
      companions have gone, any other is as it was, and the next request is first. */
  ghost predicate Served(h: Hub, last: Hub) {
    && h.queue != [] && !h.queue[0].Shutdown?
    && last.pc.Ready? && last.queue == h.queue[1..] && |last.threads| >= |h.threads|
    && forall t | 0 <= t < |h.threads| ::
         if Covers(h.queue[0].id, h.threads[t].key) then last.threads[t].key == h.threads[t].key && last.threads[t].phase.Gone?
         else last.threads[t] == h.threads[t]
  }

  /** A taken-up request whose producers have gone: nothing of the source is registered or owned, and
      nothing else has changed. */
  lemma CanStop(h: Hub) returns (run: seq<Step>)
    requires Inv(h) && h.pc.Ready? && h.queue != [] && !h.queue[0].Shutdown?
    ensures PatientRun(h, run)
    ensures var now, id := After(h, run), h.queue[0].id;
            && now.pc.Joining? && now.pc.request == h.queue[0] && now.queue == h.queue[1..]
            && now.registry == Kept(h.registry, id) && now.owned == h.owned - {id}
            && now.preview == h.preview && now.ingest == h.ingest && |now.threads| == |h.threads|
            && Enabled(now, Join(false)) && Latched(now, now.pc.taken)
            && Inv(now)
            && forall t | 0 <= t < |h.threads| ::
                 if Covers(id, h.threads[t].key) then now.threads[t].key == h.threads[t].key && now.threads[t].phase.Gone?
                 else now.threads[t] == h.threads[t]
  {
    hide Inv, Covers, Names, Latched;
    OneStep(h, Take);
    StepKeepsInv(h, Take);
    var taken := Next(h, Take);
    var which := Stopped(h);
    var leaving := ThreadsCanLeave(taken, which, |taken.threads|);
    RunsJoin(h, [Take], leaving);
    RunsKeepSingleWriter(taken, leaving);
    run := [Take] + leaving;
    var now := After(h, run);
    assert now == taken.(threads := Left(taken.threads, which, |taken.threads|));
    StoppedHaveGone(h, now);
    forall t | 0 <= t < |h.threads|
      ensures if Covers(h.queue[0].id, h.threads[t].key) then now.threads[t].key == h.threads[t].key && now.threads[t].phase.Gone?
              else now.threads[t] == h.threads[t]
    {
      StoppedIsCovered(h, t);
    }
  }

  /** The producers taking up the first request stops. */
  function Stopped(h: Hub): set<nat>
    requires h.queue != [] && !h.queue[0].Shutdown?
  {
    var mine := Mine(h.owned, h.queue[0].id);
    Taken(h.registry, h.queue[0].id) + if mine.Some? then {mine.value} else {}
  }

  lemma StoppedHaveGone(h: Hub, now: Hub)
    requires Inv(h) && h.pc.Ready? && h.queue != [] && !h.queue[0].Shutdown? && Inv(now)
    requires now == Next(h, Take).(threads := Left(Next(h, Take).threads, Stopped(h), |h.threads|))
    ensures Enabled(now, Join(false)) && Latched(now, now.pc.taken)
  {
    hide Covers;
    assert forall t | t in Stopped(h) :: t < |now.threads| && now.threads[t].phase.Gone?;
  }

  /** What a request stops is covered; what it covers and does not stop has gone already. */
  lemma StoppedIsCovered(h: Hub, t: nat)
    requires Inv(h) && h.pc.Ready? && h.queue != [] && !h.queue[0].Shutdown? && t < |h.threads|
    ensures t in Stopped(h) ==> Covers(h.queue[0].id, h.threads[t].key)
    ensures Covers(h.queue[0].id, h.threads[t].key) && t !in Stopped(h) ==> h.threads[t].phase.Gone?
  {
    var id := h.queue[0].id;
    assert Covers(id, id) by { OnlyItsOwnCompanions(id, id); }
    hide Covers;
  }

  /** A teardown is served: none of the source's producers is left, registered, owned or previewed. */
  lemma TeardownIsServed(h: Hub) returns (run: seq<Step>)
    requires Inv(h) && h.pc.Ready? && h.queue != [] && h.queue[0].Teardown?
    ensures PatientRun(h, run)
    ensures var last, id := After(h, run), h.queue[0].id;
            && Inv(last) && Served(h, last) && |last.threads| == |h.threads|
            && last.registry == Kept(h.registry, id) && last.owned == h.owned - {id} && last.preview == h.preview - {id}
  {
    hide Inv, Covers;
    run := CanStop(h);
    var now := After(h, run);
    OneStep(now, Join(false));
    var joined := Next(now, Join(false));
    OneStep(joined, Await(false));
    StepKeepsInv(now, Join(false));
    StepKeepsInv(joined, Await(false));
    RunsJoin(now, [Join(false)], [Await(false)]);
    RunsJoin(h, run, [Join(false)] + [Await(false)]);
    run := run + ([Join(false)] + [Await(false)]);
  }

  /** So is a spawn.  One that can launch and starts leaves exactly one running producer of the source,
      registered, owned and previewed; one that fails or cannot launch leaves none. */
  lemma SpawnIsServed(h: Hub, fate: Fate) returns (run: seq<Step>)
    requires Inv(h) && h.pc.Ready? && h.queue != [] && (h.queue[0].SpawnSynth? || h.queue[0].SpawnSource?)
    requires fate.Refused? ==> h.queue[0].SpawnSource?
    ensures PatientRun(h, run)
    ensures var last, id, n := After(h, run), h.queue[0].id, |h.threads|;
            var started := CanLaunch(h, h.queue[0]) && fate.Started?;
            && Inv(last) && Served(h, last) && last.preview == h.preview + {id}
            && (started ==> |last.threads| == n + 1 && last.threads[n] == Thread(id, false, false, Writing)
                            && last.registry == Kept(h.registry, id)[id := n] && last.owned == h.owned[id := n])
            && (!started ==> last.owned == h.owned - {id}
                             && forall t | n <= t < |last.threads| :: last.threads[t].phase.Gone?)
  {
    hide Inv, Covers;
    run := CanStop(h);
    var now := After(h, run);
    OneStep(now, Join(false));
    var joined := Next(now, Join(false));
    OneStep(joined, Await(false));
    var awaited := Next(joined, Await(false));
    OneStep(awaited, Spawn(fate));
    StepKeepsInv(now, Join(false));
    StepKeepsInv(joined, Await(false));
    StepKeepsInv(awaited, Spawn(fate));
    RunsJoin(joined, [Await(false)], [Spawn(fate)]);
    RunsJoin(now, [Join(false)], [Await(false)] + [Spawn(fate)]);
    RunsJoin(h, run, [Join(false)] + ([Await(false)] + [Spawn(fate)]));
    run := run + ([Join(false)] + ([Await(false)] + [Spawn(fate)]));
  }

  // ---- the ends of the hub's life -----------------------------------------------------------------

  /** A shutdown raises the flags of exactly the producers the hub owns, owns none from there, and
      nothing is taken up after it. */
  lemma ShutdownStopsOwned(h: Hub, t: nat)
    requires Inv(h) && h.pc.Ready? && h.queue != [] && h.queue[0].Shutdown? && t < |h.threads|
    ensures var last := Next(h, Take);
            && last.owned == map[] && last.registry == h.registry && last.preview == h.preview
            && last.threads[t] == h.threads[t].(stop := last.threads[t].stop)
            && (last.threads[t].stop <==> h.threads[t].stop || exists k :: k in h.owned && h.owned[k] == t)
            && !Enabled(last, Take)
  {
    assert t in h.owned.Values <==> exists k :: k in h.owned && h.owned[k] == t;
  }

  /** A submitted request is last in the queue, unless 32 wait already: then it is refused and nothing
      changes. */
  lemma SubmitIsBounded(h: Hub, request: Request)
    requires |h.queue| <= 32
    ensures var now := Next(h, Submit(request));
            && now == h.(queue := now.queue) && |now.queue| <= 32
            && now.queue == if |h.queue| == 32 then h.queue else h.queue + [request]
  {}
}
