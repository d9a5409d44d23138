/** The live-source hub: one worker that swaps and removes the producers of running sources,
    waiting for the old writer of a store before it starts the new one. */
module LiveSources {
  import opened Audio

  type Key = string

  /** The keys a teardown of `id` covers: the source itself and its `id/` companions. */
  predicate Covers(id: Key, key: Key) {
    key == id || id + "/" <= key
  }

  /** Companions are told apart by the separator alone: a source id merely sharing leading
      characters is never covered. */
  lemma OnlyItsOwnCompanions(id: Key, key: Key)
    ensures Covers(id, key) && '/' !in key ==> key == id
    ensures Covers(id, id) && forall name: Key :: Covers(id, id + "/" + name)
  {
    if id + "/" <= key {
      assert key[|id|] == '/';
    }
    forall name: Key
      ensures Covers(id, id + "/" + name)
    {
      assert id + "/" <= id + "/" + name;
    }
  }

  // ---- the registry in place ----------------------------------------------------------------

  /** The flag a producer watches and the latch its exit guard sets. */
  class ProducerStop {
    var stop: bool
    var exited: bool

    constructor ()
      ensures !stop && !exited
    {
      stop, exited := false, false;
    }
  }

  class StopRegistry {
    var entries: map<Key, ProducerStop>

    constructor ()
      ensures entries == map[]
    {
      entries := map[];
    }

    /** Registers a producer's flags, replacing any stale entry. */
    method RegisterStop(id: Key) returns (flags: ProducerStop)
      modifies this
      ensures fresh(flags) && !flags.stop && !flags.exited
      ensures entries == old(entries)[id := flags]
    {
      flags := new ProducerStop();
      entries := entries[id := flags];
    }

    /** The synchronous half of a teardown: takes every covered entry out and raises its
        stop flag; nothing else is touched. */
    method Raise(id: Key) returns (taken: map<Key, ProducerStop>)
      requires forall j, k | j in entries && k in entries && j != k :: entries[j] != entries[k]
      modifies this, entries.Values
      ensures taken == map k | k in old(entries) && Covers(id, k) :: old(entries)[k]
      ensures entries == map k | k in old(entries) && !Covers(id, k) :: old(entries)[k]
      ensures forall k | k in old(entries) ::
                var p := old(entries)[k];
                p.stop == (Covers(id, k) || old(p.stop)) && p.exited == old(p.exited)
    {
      ghost var was := entries;
      taken := map k | k in entries && Covers(id, k) :: entries[k];
      entries := map k | k in entries && !Covers(id, k) :: entries[k];
      var left := taken.Keys;
      while left != {}
        invariant left <= taken.Keys
        invariant entries == map k | k in was && !Covers(id, k) :: was[k]
        invariant forall k | k in was ::
                    was[k].stop == ((k in taken.Keys - left) || old(was[k].stop)) && was[k].exited == old(was[k].exited)
        decreases left
      {
        var k :| k in left;
        taken[k].stop := true;
        left := left - {k};
      }
    }
  }

  // ---- the protocol -------------------------------------------------------------------------------

  /** A producer thread writes its store, then leaves; its guard sets the latch last. */
  datatype Phase = Writing | Leaving | Gone

  datatype Thread = Thread(key: Key, stop: bool, latch: bool, phase: Phase)

  /** `renderable` is false for a clock in a build without the overlay renderer. */
  datatype Request = SpawnSynth(id: Key, renderable: bool) | SpawnSource(id: Key) | Teardown(id: Key) | Shutdown

  const HUB_QUEUE_DEPTH: nat := 32

  /** Where the worker stands within a request: waiting to join its own thread `mine`, then
      for the latches of all it `taken` out of the registry, then spawning. */
  datatype Pc = Ready
              | Joining(request: Request, mine: Option<nat>, taken: set<nat>)
              | Awaiting(request: Request, taken: set<nat>)
              | Spawning(request: Request)
              | Over

  /** Threads are numbered in the order they were started. */
  datatype Hub = Hub(queue: seq<Request>, threads: seq<Thread>, registry: map<Key, nat>, owned: map<Key, nat>,
                     preview: set<Key>, pc: Pc, ingest: bool)

  /** How a spawn turns out: refused before any registration, failed after it, or started. */
  datatype Fate = Refused | Failed | Started

  datatype Step = Submit(request: Request)
                | Take
                | Join(gaveUp: bool)
                | Await(gaveUp: bool)
                | Spawn(fate: Fate)
                | Return(t: nat)
                | DropGuard(t: nat)

  predicate Finished(h: Hub, t: nat) {
    t < |h.threads| && h.threads[t].phase.Gone?
  }

  predicate Latched(h: Hub, taken: set<nat>) {
    forall t | t in taken :: t < |h.threads| && h.threads[t].latch
  }

  predicate Enabled(h: Hub, s: Step) {
    match s
    case Submit(_) => true
    case Take => h.pc.Ready? && h.queue != []
    case Join(gaveUp) => h.pc.Joining? && (gaveUp || h.pc.mine.None? || Finished(h, h.pc.mine.value))
    case Await(gaveUp) => h.pc.Awaiting? && (gaveUp || Latched(h, h.pc.taken))
    case Spawn(fate) => h.pc.Spawning? && (fate.Refused? ==> h.pc.request.SpawnSource?)
    case Return(t) => t < |h.threads| && h.threads[t].phase.Writing?
    case DropGuard(t) => t < |h.threads| && h.threads[t].phase.Leaving?
  }

  /** The threads registered under keys a teardown of `id` covers. */
  function Taken(registry: map<Key, nat>, id: Key): set<nat> {
    set k | k in registry && Covers(id, k) :: registry[k]
  }

  function Kept(registry: map<Key, nat>, id: Key): map<Key, nat> {
    map k | k in registry && !Covers(id, k) :: registry[k]
  }

  function Raised(threads: seq<Thread>, which: set<nat>): (r: seq<Thread>)
    ensures |r| == |threads|
  {
    seq(|threads|, t requires 0 <= t < |threads| => if t in which then threads[t].(stop := true) else threads[t])
  }

  function Mine(owned: map<Key, nat>, id: Key): Option<nat> {
    if id in owned then Some(owned[id]) else None
  }

  /** A request taken up: every covered entry leaves the registry and every flag is raised. */
  function Begun(h: Hub, request: Request): Hub {
    match request
    case Shutdown =>
      h.(queue := h.queue, threads := Raised(h.threads, h.owned.Values), owned := map[], pc := Over)
    case _ =>
      var id, mine := request.id, Mine(h.owned, request.id);
      var taken := Taken(h.registry, id);
      h.(threads := Raised(h.threads, taken + if mine.Some? then {mine.value} else {}),
         registry := Kept(h.registry, id), owned := h.owned - {id}, pc := Joining(request, mine, taken))
  }

  function Registered(h: Hub, id: Key, thread: Thread): Hub {
    h.(threads := h.threads + [thread], registry := h.registry[id := |h.threads|])
  }

  function Launched(h: Hub, id: Key): Hub {
    Registered(h, id, Thread(id, false, false, Writing)).(owned := h.owned[id := |h.threads|])
  }

  /** A spawn that fails after registering leaves a latched entry and no thread. */
  function Spawned(h: Hub, request: Request, fate: Fate): Hub
    requires request.SpawnSynth? || request.SpawnSource?
  {
    var shown := h.(preview := h.preview + {request.id}, pc := Ready);
    if (if request.SpawnSynth? then !request.renderable else !h.ingest) || fate.Refused? then shown
    else if fate.Failed? then Registered(shown, request.id, Thread(request.id, false, true, Gone))
    else Launched(shown, request.id)
  }

  function Next(h: Hub, s: Step): Hub
    requires Enabled(h, s)
  {
    match s
    case Submit(request) => if |h.queue| < HUB_QUEUE_DEPTH then h.(queue := h.queue + [request]) else h
    case Take => Begun(h.(queue := h.queue[1..]), h.queue[0])
    case Join(_) => h.(pc := Awaiting(h.pc.request, h.pc.taken))
    case Await(_) =>
      if h.pc.request.SpawnSynth? || h.pc.request.SpawnSource? then h.(pc := Spawning(h.pc.request))
      else if h.pc.request.Teardown? then h.(preview := h.preview - {h.pc.request.id}, pc := Ready)
      else h.(pc := Ready)
    case Spawn(fate) =>
      if h.pc.request.SpawnSynth? || h.pc.request.SpawnSource? then Spawned(h, h.pc.request, fate) else h.(pc := Ready)
    case Return(t) => h.(threads := h.threads[t := h.threads[t].(phase := Leaving)])
    case DropGuard(t) => h.(threads := h.threads[t := h.threads[t].(phase := Gone, latch := true)])
  }

  // ---- one writer per source -------------------------------------------------------------------------

  /** The request a worker is in the middle of, and what it still waits for. */
  function Stopping(h: Hub): set<nat> {
    match h.pc
    case Joining(_, _, taken) => taken
    case Awaiting(_, taken) => taken
    case _ => {}
  }

  /** A map from keys names threads of those keys. */
  predicate Names(threads: seq<Thread>, m: map<Key, nat>) {
    forall k | k in m :: m[k] < |threads| && threads[m[k]].key == k
  }

  /** A latch is set exactly when its thread has gone. */
  predicate Truthful(threads: seq<Thread>) {
    forall t | 0 <= t < |threads| :: threads[t].latch <==> threads[t].phase.Gone?
  }

  /** What is not gone is registered or being stopped. */
  predicate Accounted(threads: seq<Thread>, registry: map<Key, nat>, stopping: set<nat>) {
    forall t | 0 <= t < |threads| && !threads[t].phase.Gone? ::
      (threads[t].key in registry && registry[threads[t].key] == t) || t in stopping
  }

  /** Nothing a running request covers is registered. */
  predicate Cleared(pc: Pc, registry: map<Key, nat>) {
    pc.Joining? || pc.Awaiting? || pc.Spawning? ==>
      !pc.request.Shutdown? && forall k | k in registry :: !Covers(pc.request.id, k)
  }

  /** What is being stopped has been asked to, is covered, and is one thread a key. */
  predicate Asked(threads: seq<Thread>, id: Key, stopping: set<nat>) {
    && (forall t | t in stopping :: t < |threads| && threads[t].stop && Covers(id, threads[t].key))
    && (forall t, u | t in stopping && u in stopping :: threads[t].key == threads[u].key ==> t == u)
  }

  function RequestId(pc: Pc): Key {
    if (pc.Joining? || pc.Awaiting? || pc.Spawning?) && !pc.request.Shutdown? then pc.request.id else ""
  }

  predicate Inv(h: Hub) {
    && Names(h.threads, h.registry) && Names(h.threads, h.owned)
    && Truthful(h.threads)
    && Accounted(h.threads, h.registry, Stopping(h))
    && Cleared(h.pc, h.registry)
    && Asked(h.threads, RequestId(h.pc), Stopping(h))
  }

  /** No two producers of one key are running. */
  predicate SingleWriter(h: Hub) {
    forall t, u | 0 <= t < u < |h.threads| && h.threads[t].key == h.threads[u].key ::
      h.threads[t].phase.Gone? || h.threads[u].phase.Gone?
  }

  lemma InvMeansSingleWriter(h: Hub)
    requires Inv(h)
    ensures SingleWriter(h)
  {}

  /** A wait that did not time out: every producer taken out has really gone. */
  predicate Patient(h: Hub, s: Step) {
    s.Await? && h.pc.Awaiting? ==> Latched(h, h.pc.taken)
  }

  lemma StepKeepsInv(h: Hub, s: Step)
    requires Inv(h) && Enabled(h, s) && Patient(h, s)
    ensures Inv(Next(h, s))
  {
    match s
    case Submit(_) =>
    case Take => TakeKeepsInv(h);
    case Join(_) =>
    case Await(_) => AwaitKeepsInv(h, s);
    case Spawn(fate) => SpawnKeepsInv(h, fate);
    case Return(t) => PhaseKeepsInv(h, t, h.threads[t].(phase := Leaving));
    case DropGuard(t) => PhaseKeepsInv(h, t, h.threads[t].(phase := Gone, latch := true));
  }

  /** A producer's own step keeps the books: it only moves towards gone. */
  lemma PhaseKeepsInv(h: Hub, t: nat, next: Thread)
    requires Inv(h) && t < |h.threads| && !h.threads[t].phase.Gone?
    requires next.key == h.threads[t].key && next.stop == h.threads[t].stop && (next.latch <==> next.phase.Gone?)
    ensures Inv(h.(threads := h.threads[t := next]))
  {
    hide Covers;
  }

  lemma AwaitKeepsInv(h: Hub, s: Step)
    requires Inv(h) && Enabled(h, s) && Patient(h, s) && s.Await?
    ensures Inv(Next(h, s))
  {
    hide Covers;
    var next := Next(h, s);
    forall t | 0 <= t < |h.threads| && !h.threads[t].phase.Gone?
      ensures h.threads[t].key in h.registry && h.registry[h.threads[t].key] == t
    {
      assert t !in h.pc.taken;
    }
  }

  lemma TakeKeepsInv(h: Hub)
    requires Inv(h) && Enabled(h, Take)
    ensures Inv(Next(h, Take))
  {
    var request := h.queue[0];
    if request.Shutdown? {
      RaisedKeeps(h.threads, h.owned.Values, h.registry, {});
    } else {
      hide Covers;
      var id, mine := request.id, Mine(h.owned, request.id);
      var which := Taken(h.registry, id) + if mine.Some? then {mine.value} else {};
      RaisedKeeps(h.threads, which, h.registry, {});
      TakenKeeps(Raised(h.threads, which), h.registry, id, which);
    }
  }

  /** Raising flags changes no key, latch or phase. */
  lemma RaisedKeeps(threads: seq<Thread>, which: set<nat>, registry: map<Key, nat>, stopping: set<nat>)
    ensures var r := Raised(threads, which);
            && (forall m :: Names(threads, m) ==> Names(r, m))
            && (Truthful(threads) ==> Truthful(r))
            && (Accounted(threads, registry, stopping) ==> Accounted(r, registry, stopping))
            && (forall t | t in which && t < |threads| :: r[t].stop)
  {}

  /** Moving the covered entries from the registry to the stopping set loses none. */
  lemma TakenKeeps(threads: seq<Thread>, registry: map<Key, nat>, id: Key, which: set<nat>)
    requires Names(threads, registry) && Accounted(threads, registry, {}) && Taken(registry, id) <= which
    requires forall t | t in which && t < |threads| :: threads[t].stop
    ensures Names(threads, Kept(registry, id))
    ensures Accounted(threads, Kept(registry, id), Taken(registry, id))
    ensures Asked(threads, id, Taken(registry, id))
    ensures forall k | k in Kept(registry, id) :: !Covers(id, k)
  {}

  lemma SpawnKeepsInv(h: Hub, fate: Fate)
    requires Inv(h) && Enabled(h, Spawn(fate))
    ensures Inv(Next(h, Spawn(fate)))
  {
    hide Names, Truthful, Accounted;
    var request := h.pc.request;
    if (request.SpawnSynth? || request.SpawnSource?) && !fate.Refused? {
      var thread := if fate.Failed? then Thread(request.id, false, true, Gone) else Thread(request.id, false, false, Writing);
      assert Covers(request.id, request.id);
      hide Covers;
      AddedKeeps(h.threads, h.registry, h.owned, request.id, thread);
    }
  }

  lemma AddedKeeps(threads: seq<Thread>, registry: map<Key, nat>, owned: map<Key, nat>, id: Key, thread: Thread)
    requires Names(threads, registry) && Names(threads, owned) && Truthful(threads) && Accounted(threads, registry, {})
    requires id !in registry && thread.key == id && (thread.latch <==> thread.phase.Gone?)
    ensures var n := |threads|;
            && Names(threads + [thread], registry[id := n]) && Names(threads + [thread], owned[id := n])
            && Names(threads + [thread], owned)
            && Truthful(threads + [thread]) && Accounted(threads + [thread], registry[id := n], {})
  {}

  predicate PatientRun(h: Hub, run: seq<Step>)
    decreases |run|
  {
    run != [] ==> Enabled(h, run[0]) && Patient(h, run[0]) && PatientRun(Next(h, run[0]), run[1..])
  }

  function After(h: Hub, run: seq<Step>): Hub
    requires PatientRun(h, run)
    decreases |run|
  {
    if run == [] then h else After(Next(h, run[0]), run[1..])
  }

  /** Over every interleaving of requests, hub steps and producer steps in which no exit wait
      times out, a source never has two running producers. */
  lemma {:induction false} RunsKeepSingleWriter(h: Hub, run: seq<Step>)
    requires Inv(h) && PatientRun(h, run)
    ensures Inv(After(h, run)) && SingleWriter(After(h, run))
    decreases |run|
  {
    if run == [] {
      InvMeansSingleWriter(h);
    } else {
      StepKeepsInv(h, run[0]);
      hide Inv, SingleWriter;
      RunsKeepSingleWriter(Next(h, run[0]), run[1..]);
    }
  }

  /** The hub over the producers the run started with. */
  function Boot(threads: seq<Thread>, registry: map<Key, nat>, ingest: bool): Hub {
    Hub([], threads, registry, map[], {}, Ready, ingest)
  }

  /** The start-up producers, each registered under its own key with its own flags, are sound
      books to start from. */
  lemma BootIsSound(threads: seq<Thread>, registry: map<Key, nat>, ingest: bool)
    requires forall t | 0 <= t < |threads| :: threads[t].key in registry && registry[threads[t].key] == t
    requires forall k | k in registry :: registry[k] < |threads| && threads[registry[k]].key == k
    requires forall t | 0 <= t < |threads| :: threads[t].latch <==> threads[t].phase.Gone?
    ensures Inv(Boot(threads, registry, ingest))
  {}

  // ---- what a teardown stops ------------------------------------------------------------------------------

  /** Taking up a request raises the flag of exactly the producers registered under the id or
      its companions, and of the one the hub owns for it; it changes nothing else of any
      producer. */
  lemma TeardownStopsExactly(h: Hub, t: nat)
    requires Inv(h) && Enabled(h, Take) && !h.queue[0].Shutdown? && t < |h.threads|
    ensures var id, was, now := h.queue[0].id, h.threads[t], Next(h, Take).threads[t];
            && now == was.(stop := now.stop)
            && (now.stop <==> (was.stop
                               || (was.key in h.registry && h.registry[was.key] == t && Covers(id, was.key))
                               || (id in h.owned && h.owned[id] == t)))
            && (now.stop && !was.stop ==> Covers(id, was.key))
  {
    hide Covers;
    var id := h.queue[0].id;
    assert Covers(id, id) by { OnlyItsOwnCompanions(id, id); }
    assert t in Taken(h.registry, id) <==>
      h.threads[t].key in h.registry && h.registry[h.threads[t].key] == t && Covers(id, h.threads[t].key);
  }

  /** A wait that ends in time leaves no producer of the source or its companions running. */
  lemma TeardownLeavesNoneRunning(h: Hub, t: nat)
    requires Inv(h) && h.pc.Awaiting? && Latched(h, h.pc.taken)
    requires t < |h.threads| && Covers(h.pc.request.id, h.threads[t].key)
    ensures h.threads[t].phase.Gone?
  {}

  /** A wait never hangs on a producer that was not asked to stop, nor on one that failed to
      spawn: every latch still awaited belongs to a running thread whose flag is raised. */
  lemma AwaitedProducersCanLeave(h: Hub, t: nat)
    requires Inv(h) && t in Stopping(h) && !h.threads[t].latch
    ensures h.threads[t].stop && (Enabled(h, Return(t)) || Enabled(h, DropGuard(t)))
  {}

  // ---- when the wait times out ---------------------------------------------------------------------------

  /** A request that can start a producer: a renderable synthetic source, or a decoded one on a
      run with an ingest spawner. */
  predicate CanLaunch(h: Hub, request: Request) {
    (request.SpawnSynth? && request.renderable) || (request.SpawnSource? && h.ingest)
  }

  /** Spawning once the wait is over keeps one writer exactly when the old producer of that
      very source has gone: a timed-out wait on it lets two write the reused store. */
  lemma SpawnAfterWaitIff(h: Hub)
    requires Inv(h) && h.pc.Awaiting? && CanLaunch(h, h.pc.request)
    ensures SingleWriter(Next(Next(h, Await(true)), Spawn(Started)))
            <==> forall t | t in h.pc.taken && h.threads[t].key == h.pc.request.id :: h.threads[t].phase.Gone?
  {
    hide Covers;
    var id := h.pc.request.id;
    var last := Next(Next(h, Await(true)), Spawn(Started));
    var n := |h.threads|;
    assert last.threads == h.threads + [Thread(id, false, false, Writing)];
    assert id !in h.registry by { OnlyItsOwnCompanions(id, id); }
    InvMeansSingleWriter(h);
    if forall t | t in h.pc.taken && h.threads[t].key == id :: h.threads[t].phase.Gone? {
      forall t, u | 0 <= t < u < |last.threads| && last.threads[t].key == last.threads[u].key
        ensures last.threads[t].phase.Gone? || last.threads[u].phase.Gone?
      {
        assert last.threads[t] == h.threads[t];
        if u < n {
          assert last.threads[u] == h.threads[u];
        }
      }
    } else {
      var t :| t in h.pc.taken && h.threads[t].key == id && !h.threads[t].phase.Gone?;
      assert last.threads[t] == h.threads[t] && last.threads[n].key == id;
      assert !SingleWriter(last);
    }
  }

  const STUCK: Hub := Boot([Thread("cam", false, false, Writing)], map["cam" := 0], false)

  /** And it is reachable: one edit of a source whose old producer outlasts the grace. */
  lemma TimedOutEditHasTwoWriters()
    ensures Inv(STUCK)
    ensures var h1 := Next(STUCK, Submit(SpawnSynth("cam", true)));
            Enabled(h1, Take) &&
            var h2 := Next(h1, Take);
            Enabled(h2, Join(true)) &&
            var h3 := Next(h2, Join(true));
            Enabled(h3, Await(true)) &&
            var h4 := Next(h3, Await(true));
            Enabled(h4, Spawn(Started)) && !SingleWriter(Next(h4, Spawn(Started)))
  {
    var h1 := Next(STUCK, Submit(SpawnSynth("cam", true)));
    var h2 := Next(h1, Take);
    assert h2.threads[0].key == "cam" && h2.threads[0].phase.Writing?;
    var h3 := Next(h2, Join(true));
    var h4 := Next(h3, Await(true));
    var h5 := Next(h4, Spawn(Started));
    assert h5.threads[0].key == "cam" && h5.threads[1].key == "cam";
  }
}
