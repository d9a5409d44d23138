/** The triple buffer behind `publish_window`: one writer rotating pooled snapshots
    through the live slot, one reader holding at most one of them.  Reference counts
    are the sets of holders; each step below is one atomic action of either side. */
module WindowPool {
  import opened Store

  type BufferId = nat

  const POOL_SIZE := 3

  /** Position of the first buffer nobody else references, or the length if none. */
  function FirstFree(buffers: seq<BufferId>, shared: set<BufferId>): (p: nat)
    ensures p <= |buffers|
    ensures p < |buffers| ==> buffers[p] !in shared
    ensures forall i | 0 <= i < p :: buffers[i] in shared
  {
    if buffers == [] || buffers[0] !in shared then 0 else 1 + FirstFree(buffers[1..], shared)
  }

  function SwapRemove(buffers: seq<BufferId>, p: nat): seq<BufferId>
    requires p < |buffers|
  {
    buffers[p := buffers[|buffers| - 1]][..|buffers| - 1]
  }

  class Pool {
    var buffers: seq<BufferId>

    constructor (buffers: seq<BufferId>)
      ensures this.buffers == buffers
    {
      this.buffers := buffers;
    }

    /** A buffer the writer may overwrite: a pooled one that is not `shared`, else the
        freshly allocated `spare`. */
    method TakeReusable(shared: set<BufferId>, spare: BufferId) returns (id: BufferId)
      modifies this
      ensures var p := FirstFree(old(buffers), shared);
              if p < |old(buffers)| then id == old(buffers)[p] && buffers == SwapRemove(old(buffers), p)
              else id == spare && buffers == old(buffers)
    {
      var p := 0;
      while p < |buffers| && buffers[p] in shared
        invariant p <= |buffers| && forall i | 0 <= i < p :: buffers[i] in shared
      {
        p := p + 1;
      }
      if p == |buffers| {
        return spare;
      }
      id := buffers[p];
      buffers := SwapRemove(buffers, p);
    }

    /** Returns a displaced window; a surplus beyond the pool's bound is dropped. */
    method ReturnBuffer(id: BufferId)
      modifies this
      ensures buffers == if |old(buffers)| < POOL_SIZE then old(buffers) + [id] else old(buffers)
    {
      if |buffers| < POOL_SIZE {
        buffers := buffers + [id];
      }
    }
  }

  // ---- the two-party protocol --------------------------------------------------

  /** Where the writer stands inside one `publish_window`, and what it means to publish. */
  datatype Writer =
    | Idle
    | Taken(id: BufferId)
    | Based(id: BufferId, base: int)
    | Filled(id: BufferId, window: RingSnapshot)
    | Swapped(displaced: BufferId)

  datatype Reader = Free | Holding(id: BufferId)

  /** `mem` is the heap of snapshots; `published` is the history of windows made live and
      `heldIndex` the one the reader loaded. */
  datatype State = State(mem: map<BufferId, RingSnapshot>, live: BufferId, pool: seq<BufferId>, next: BufferId,
                         writer: Writer, reader: Reader, published: seq<RingSnapshot>, heldIndex: nat) {
    /** Buffers referenced outside the pool: the live slot's and the reader's. */
    function Shared(): set<BufferId> {
      {live} + if reader.Holding? then {reader.id} else {}
    }
  }

  /** Writer: take; overwrite the base; overwrite the samples; swap; give back the
      displaced window; or store a fresh snapshot (the append path).  Reader: load;
      copy out of the held snapshot; release. */
  datatype Step =
    | Take | SetBase(base: int) | SetSamples(samples: seq<real>) | Swap | Return | StoreFresh(w: RingSnapshot)
    | Load | Copy | Release

  predicate Enabled(s: State, step: Step) {
    match step
    case Take => s.writer.Idle?
    case SetBase(_) => s.writer.Taken? && s.writer.id in s.mem
    case SetSamples(_) => s.writer.Based? && s.writer.id in s.mem
    case Swap => s.writer.Filled? && s.writer.id in s.mem
    case Return => s.writer.Swapped?
    case StoreFresh(_) => s.writer.Idle?
    case Load => s.reader.Free? && |s.published| > 0
    case Copy => s.reader.Holding?
    case Release => s.reader.Holding?
  }

  function Next(s: State, step: Step): State
    requires Enabled(s, step)
  {
    match step
    case Take =>
      var p := FirstFree(s.pool, s.Shared());
      if p < |s.pool| then s.(pool := SwapRemove(s.pool, p), writer := Taken(s.pool[p]))
      else s.(mem := s.mem[s.next := RingSnapshot(0, [])], next := s.next + 1, writer := Taken(s.next))
    case SetBase(base) =>
      s.(mem := s.mem[s.writer.id := s.mem[s.writer.id].(base := base)], writer := Based(s.writer.id, base))
    case SetSamples(samples) =>
      s.(mem := s.mem[s.writer.id := s.mem[s.writer.id].(samples := samples)],
         writer := Filled(s.writer.id, RingSnapshot(s.writer.base, samples)))
    case Swap =>
      s.(live := s.writer.id, writer := Swapped(s.live), published := s.published + [s.mem[s.writer.id]])
    case Return =>
      s.(pool := if |s.pool| < POOL_SIZE then s.pool + [s.writer.displaced] else s.pool, writer := Idle)
    case StoreFresh(w) =>
      s.(mem := s.mem[s.next := w], live := s.next, next := s.next + 1, published := s.published + [w])
    case Load => s.(reader := Holding(s.live), heldIndex := |s.published| - 1)
    case Copy => s
    case Release => s.(reader := Free)
  }

  /** A new store: an empty live window and the pool's `POOL_SIZE - 1` seeds. */
  const Fresh: State :=
    State(map[0 := RingSnapshot(0, []), 1 := RingSnapshot(0, []), 2 := RingSnapshot(0, [])], 0, [1, 2], 3,
          Idle, Free, [RingSnapshot(0, [])], 0)

  ghost predicate Runs(s: State, steps: seq<Step>, t: State)
    decreases |steps|
  {
    if steps == [] then s == t else Enabled(s, steps[0]) && Runs(Next(s, steps[0]), steps[1..], t)
  }

  /** The buffer the writer has in hand, outside both the pool and the live slot. */
  function InHand(s: State): set<BufferId> {
    match s.writer
    case Idle => {}
    case Taken(id) => {id}
    case Based(id, _) => {id}
    case Filled(id, _) => {id}
    case Swapped(id) => {id}
  }

  ghost predicate Inv(s: State) {
    && s.live in s.mem && s.live !in s.pool
    && (forall i | 0 <= i < |s.pool| :: s.pool[i] in s.mem)
    && (forall i, j | 0 <= i < j < |s.pool| :: s.pool[i] != s.pool[j])
    && (forall id | id in s.mem :: id < s.next)
    && |s.pool| == (if s.writer.Idle? then POOL_SIZE - 1 else POOL_SIZE - 2)
    && (forall id | id in InHand(s) :: id in s.mem && id != s.live && id !in s.pool)
    && (!s.writer.Idle? && !s.writer.Swapped? ==> s.reader != Holding(s.writer.id))
    && (s.writer.Based? ==> s.mem[s.writer.id].base == s.writer.base)
    && (s.writer.Filled? ==> s.mem[s.writer.id] == s.writer.window)
    && |s.published| > 0 && s.mem[s.live] == s.published[|s.published| - 1]
    && (s.reader.Holding? ==> s.reader.id in s.mem && s.heldIndex < |s.published|
                              && s.mem[s.reader.id] == s.published[s.heldIndex])
  }

  /** With three buffers in circulation a pooled one is always free, so the allocating
      fallback of `take_reusable` is unreachable. */
  lemma TakeNeverAllocates(s: State)
    requires Inv(s) && s.writer.Idle?
    ensures FirstFree(s.pool, s.Shared()) < |s.pool|
    ensures Next(s, Take).next == s.next && Next(s, Take).mem == s.mem
  {
    assert s.pool[0] !in s.Shared() || s.pool[1] !in s.Shared();
  }

  lemma StepKeepsInv(s: State, step: Step)
    requires Inv(s) && Enabled(s, step)
    ensures Inv(Next(s, step))
  {
    if step.Take? {
      TakeNeverAllocates(s);
    }
  }

  /** No step writes to the live snapshot or to the one the reader holds. */
  lemma SharedSnapshotsAreImmutable(s: State, step: Step)
    requires Inv(s) && Enabled(s, step)
    ensures forall id | id in s.Shared() :: id in Next(s, step).mem && Next(s, step).mem[id] == s.mem[id]
  {
    if step.Take? {
      TakeNeverAllocates(s);
    }
  }

  lemma {:induction false} RunKeepsInv(s: State, steps: seq<Step>, t: State)
    requires Inv(s) && Runs(s, steps, t)
    ensures Inv(t)
    ensures |s.published| <= |t.published| && s.published == t.published[..|s.published|]
    decreases |steps|
  {
    if steps == [] {
    } else {
      StepKeepsInv(s, steps[0]);
      RunKeepsInv(Next(s, steps[0]), steps[1..], t);
    }
  }

  /** However the reader interleaves with the fill, what a swap makes live is the window
      the writer set out to publish: `publish_window` is an atomic replacement. */
  lemma SwapPublishesTheFill(s: State)
    requires Inv(s) && s.writer.Filled?
    ensures Enabled(s, Swap)
    ensures Next(s, Swap).published == s.published + [s.writer.window]
    ensures Next(s, Swap).live in Next(s, Swap).mem
    ensures Next(s, Swap).mem[Next(s, Swap).live] == s.writer.window
    ensures Next(s, Swap).mem == s.mem
  {}

  /** While a snapshot is held it stays the window that was loaded. */
  lemma {:induction false} HeldSnapshotIsStable(s: State, steps: seq<Step>, t: State)
    requires Inv(s) && s.reader.Holding? && Runs(s, steps, t) && Release !in steps
    ensures t.reader == s.reader && s.reader.id in s.mem && s.reader.id in t.mem
    ensures t.mem[t.reader.id] == s.mem[s.reader.id]
    decreases |steps|
  {
    if steps == [] {
    } else {
      StepKeepsInv(s, steps[0]);
      SharedSnapshotsAreImmutable(s, steps[0]);
      HeldSnapshotIsStable(Next(s, steps[0]), steps[1..], t);
    }
  }

  /** Triple-buffer safety, over every interleaving from a new store: a read that loads
      once and copies at any later point, whatever the writer does meanwhile, is the
      silence-filled slice of the one window that was newest when it loaded. */
  lemma ReadIsOnePublishedWindow(before: seq<Step>, s: State, during: seq<Step>, t: State,
                                 channels: nat, start: int, frames: nat)
    requires channels > 0
    requires Runs(Fresh, before, s) && Enabled(s, Load)
    requires Runs(Next(s, Load), during, t) && Release !in during
    ensures t.reader.Holding? && t.reader.id in t.mem
    ensures t.mem[t.reader.id].Slice(channels, start, frames)
         == s.published[|s.published| - 1].Slice(channels, start, frames)
  {
    RunKeepsInv(Fresh, before, s);
    StepKeepsInv(s, Load);
    HeldSnapshotIsStable(Next(s, Load), during, t);
  }

  /** However many windows are replaced, nothing is allocated and the pool stays within
      its bound (only the append path's own fresh snapshots are new). */
  lemma {:induction false} ReplacingNeverAllocates(s: State, steps: seq<Step>, t: State)
    requires Inv(s) && Runs(s, steps, t) && forall i | 0 <= i < |steps| :: !steps[i].StoreFresh?
    ensures t.mem.Keys == s.mem.Keys && t.next == s.next && |t.pool| < POOL_SIZE
    decreases |steps|
  {
    if steps == [] {
    } else {
      StepKeepsInv(s, steps[0]);
      if steps[0].Take? {
        TakeNeverAllocates(s);
      }
      ReplacingNeverAllocates(Next(s, steps[0]), steps[1..], t);
    }
  }

  // ---- both sides get through ---------------------------------------------------------------------

  /** From any idle writer a replacement goes through, whatever the reader holds: it makes exactly the
      window asked for live, and gives back as many buffers as it took. */
  lemma ReplaceGoesThrough(s: State, base: int, samples: seq<real>) returns (t: State)
    requires Inv(s) && s.writer.Idle?
    ensures Runs(s, [Take, SetBase(base), SetSamples(samples), Swap, Return], t)
    ensures Inv(t) && t.writer.Idle? && t.reader == s.reader && t.heldIndex == s.heldIndex
    ensures t.published == s.published + [RingSnapshot(base, samples)] && t.mem[t.live] == RingSnapshot(base, samples)
    ensures t.next == s.next && |t.pool| == |s.pool|
  {
    var run := [Take, SetBase(base), SetSamples(samples), Swap, Return];
    TakeNeverAllocates(s);
    StepKeepsInv(s, Take);
    var taken := Next(s, Take);
    StepKeepsInv(taken, SetBase(base));
    var based := Next(taken, SetBase(base));
    StepKeepsInv(based, SetSamples(samples));
    var filled := Next(based, SetSamples(samples));
    SwapPublishesTheFill(filled);
    StepKeepsInv(filled, Swap);
    var swapped := Next(filled, Swap);
    StepKeepsInv(swapped, Return);
    t := Next(swapped, Return);
    hide Inv;
    OneMore(swapped, Return, [], t);
    OneMore(filled, Swap, [Return], t);
    OneMore(based, SetSamples(samples), [Swap, Return], t);
    OneMore(taken, SetBase(base), [SetSamples(samples), Swap, Return], t);
    OneMore(s, Take, [SetBase(base), SetSamples(samples), Swap, Return], t);
  }

  lemma OneMore(s: State, step: Step, rest: seq<Step>, t: State)
    requires Enabled(s, step) && Runs(Next(s, step), rest, t)
    ensures Runs(s, [step] + rest, t)
  {
    assert ([step] + rest)[1..] == rest;
  }

  /** So does an append, with a snapshot of its own. */
  lemma AppendGoesThrough(s: State, w: RingSnapshot)
    requires Inv(s) && s.writer.Idle?
    ensures Enabled(s, StoreFresh(w))
    ensures var t := Next(s, StoreFresh(w));
            && Inv(t) && t.published == s.published + [w] && t.live in t.mem && t.mem[t.live] == w
            && t.live == s.next && t.next > s.next && t.pool == s.pool && t.reader == s.reader
  {
    StepKeepsInv(s, StoreFresh(w));
  }

  /** And a read, which holds the newest window while it copies and then lets go of it. */
  lemma ReadGoesThrough(s: State)
    requires Inv(s) && s.reader.Free?
    ensures Enabled(s, Load)
    ensures var held := Next(s, Load);
            && Enabled(held, Copy) && held.reader == Holding(s.live) && held.mem == s.mem
            && Enabled(Next(held, Copy), Release) && Next(Next(held, Copy), Release) == held.(reader := Free)
  {}
}
