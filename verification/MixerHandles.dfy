/** What the mixer's generational handles guarantee over any run of add and remove. */
module MixerHandles {
  import opened Audio
  import opened Mixer

  datatype Op = Add(id: string) | Remove(point: RoutePoint)

  /** The storage together with every handle issued so far. */
  datatype History = History(mixer: Slots, issued: seq<RoutePoint>)

  const Empty: History := History(Slots([], [], []), [])

  function Step(h: History, op: Op): History {
    match op
    case Add(id) => var (m, p) := h.mixer.AddInput(id); History(m, h.issued + [p])
    case Remove(p) => h.(mixer := h.mixer.RemoveInput(p))
  }

  function Run(h: History, ops: seq<Op>): History
    decreases |ops|
  {
    if ops == [] then h else Run(Step(h, ops[0]), ops[1..])
  }

  predicate Issued(h: History, i: nat)
    requires i < |h.mixer.generations|
  {
    RoutePoint(i, h.mixer.generations[i]) in h.issued
  }

  /** A free slot is exactly an empty one whose current generation has never been handed
      out; an empty slot off the list is a tombstone at the last generation. */
  ghost predicate Inv(h: History) {
    && h.mixer.WellFormed()
    && (forall a, b | 0 <= a < b < |h.issued| :: h.issued[a] != h.issued[b])
    && (forall p | p in h.issued :: p.input < |h.mixer.slots| && p.generation <= h.mixer.generations[p.input])
    && (forall i | 0 <= i < |h.mixer.slots| :: i in h.mixer.free <==> h.mixer.slots[i].None? && !Issued(h, i))
    && (forall i | 0 <= i < |h.mixer.slots| && h.mixer.slots[i].Some? :: Issued(h, i))
  }

  lemma StepKeepsInv(h: History, op: Op)
    requires Inv(h)
    ensures Inv(Step(h, op))
  {
    match op
    case Add(id) => AddKeepsInv(h, id);
    case Remove(p) => RemoveKeepsInv(h, p);
  }

  lemma AddKeepsInv(h: History, id: string)
    requires Inv(h)
    ensures Inv(Step(h, Add(id)))
  {
    var (m', p) := h.mixer.AddInput(id);
    var h' := Step(h, Add(id));
    AddIssuesAnew(h, id);
    AddKeepsWellFormed(h.mixer, id);
    assert h'.issued[|h.issued|] == p;
    forall i | 0 <= i < |m'.slots|
      ensures i in m'.free <==> m'.slots[i].None? && !Issued(h', i)
      ensures m'.slots[i].Some? ==> Issued(h', i)
    {
      if i != p.input {
        assert Issued(h', i) == Issued(h, i);
      }
    }
  }

  /** The handle of an add has never been issued; only its own slot changes, and only that slot
      leaves the free list. */
  lemma AddIssuesAnew(h: History, id: string)
    requires Inv(h)
    ensures var (m, (m', p)) := (h.mixer, h.mixer.AddInput(id));
            && p !in h.issued
            && p.input < |m'.slots| && m'.slots[p.input].Some? && m'.generations[p.input] == p.generation
            && |m.slots| <= |m'.slots| <= |m.slots| + 1
            && (forall i | 0 <= i < |m'.slots| && i != p.input ::
                  i < |m.slots| && m'.slots[i] == m.slots[i] && m'.generations[i] == m.generations[i] && (i in m'.free <==> i in m.free))
            && (forall i | 0 <= i < |m.generations| :: m'.generations[i] == m.generations[i])
            && p.input !in m'.free
  {
    var m := h.mixer;
    if |m.free| > 0 {
      var f := |m.free| - 1;
      assert m.free == m.free[..f] + [m.free[f]];
      assert m.free[f] in m.free;
    }
  }

  lemma RemoveKeepsInv(h: History, p: RoutePoint)
    requires Inv(h)
    ensures Inv(Step(h, Remove(p)))
  {
    var m, m' := h.mixer, h.mixer.RemoveInput(p);
    var h' := Step(h, Remove(p));
    if m.Names(p) {
      forall i | 0 <= i < |m'.slots|
        ensures i in m'.free <==> m'.slots[i].None? && !Issued(h', i)
        ensures m'.slots[i].Some? ==> Issued(h', i)
      {
        assert i != p.input ==> Issued(h', i) == Issued(h, i);
      }
    }
  }

  lemma {:induction false} RunKeepsInv(h: History, ops: seq<Op>)
    requires Inv(h)
    ensures Inv(Run(h, ops))
    decreases |ops|
  {
    if ops == [] {
    } else {
      StepKeepsInv(h, ops[0]);
      RunKeepsInv(Step(h, ops[0]), ops[1..]);
    }
  }

  /** No two handles ever issued are equal, and the free list is exactly the
      duplicate-free set of empty slots that are not tombstones, over every run and up to
      generation exhaustion.  (Removals may name any handle, forged or stale.) */
  lemma HandlesNeverAlias(ops: seq<Op>)
    ensures var h := Run(Empty, ops);
            && (forall a, b | 0 <= a < b < |h.issued| :: h.issued[a] != h.issued[b])
            && (forall a, b | 0 <= a < b < |h.mixer.free| :: h.mixer.free[a] != h.mixer.free[b])
            && (forall i | 0 <= i < |h.mixer.slots| ::
                  i in h.mixer.free <==>
                  h.mixer.slots[i].None? && !(RoutePoint(i, MAX_GENERATION) in h.issued))
  {
    RunKeepsInv(Empty, ops);
    var h := Run(Empty, ops);
    forall i | 0 <= i < |h.mixer.slots|
      ensures i in h.mixer.free <==> h.mixer.slots[i].None? && !(RoutePoint(i, MAX_GENERATION) in h.issued)
    {
      assert i in h.mixer.free <==> h.mixer.slots[i].None? && !Issued(h, i);
      if RoutePoint(i, MAX_GENERATION) in h.issued {
        assert h.mixer.generations[i] == MAX_GENERATION;
      }
    }
  }

  /** A handle no step can revive: its generation is spent, or its slot is a tombstone. */
  ghost predicate Spent(m: Slots, p: RoutePoint) {
    && p.input < |m.slots| && p.input < |m.generations|
    && (p.generation < m.generations[p.input]
        || (p.generation == m.generations[p.input] && m.slots[p.input].None? && p.input !in m.free))
  }

  lemma {:induction false} SpentStaysSpent(h: History, ops: seq<Op>, p: RoutePoint)
    requires Inv(h) && Spent(h.mixer, p)
    ensures Spent(Run(h, ops).mixer, p) && Run(h, ops).mixer.Find(p) == None
    decreases |ops|
  {
    if ops == [] {
    } else {
      StepKeepsInv(h, ops[0]);
      if ops[0].Remove? && h.mixer.Names(ops[0].point) {
        assert ops[0].point.input != p.input || p.generation < h.mixer.generations[p.input];
      }
      SpentStaysSpent(Step(h, ops[0]), ops[1..], p);
    }
  }

  /** Once removed, a handle never resolves again, whatever is added or removed after. */
  lemma RemovedNeverResolves(before: seq<Op>, p: RoutePoint, after: seq<Op>)
    requires Run(Empty, before).mixer.Names(p)
    ensures Run(Step(Run(Empty, before), Remove(p)), after).mixer.Find(p) == None
  {
    var h := Run(Empty, before);
    RunKeepsInv(Empty, before);
    StepKeepsInv(h, Remove(p));
    assert p.input !in h.mixer.free;
    SpentStaysSpent(Step(h, Remove(p)), after, p);
  }

  // ---- bounded storage ---------------------------------------------------------

  function Occupied(m: Slots): set<nat> {
    set i: nat | i < |m.slots| && m.slots[i].Some?
  }

  function Tombstones(m: Slots): set<nat> {
    set i: nat | i < |m.slots| && m.slots[i].None? && i !in m.free
  }

  /** The naturals below `n`. */
  function Below(n: nat): (r: set<nat>)
    ensures |r| == n && forall i: nat :: i in r <==> i < n
  {
    if n == 0 then {} else Below(n - 1) + {n - 1}
  }

  function Elements(s: seq<nat>): set<nat> {
    set x | x in s
  }

  lemma {:induction false} DistinctCount(s: seq<nat>)
    requires forall i, j | 0 <= i < j < |s| :: s[i] != s[j]
    ensures |Elements(s)| == |s|
  {
    if s == [] {
    } else {
      var n := |s| - 1;
      DistinctCount(s[..n]);
      assert s == s[..n] + [s[n]];
      assert Elements(s) == Elements(s[..n]) + {s[n]};
      assert s[n] !in s[..n];
    }
  }

  lemma RemoveKeepsWellFormed(m: Slots, p: RoutePoint)
    requires m.WellFormed()
    ensures m.RemoveInput(p).WellFormed()
  {
    var m' := m.RemoveInput(p);
    if m.Names(p) && m.generations[p.input] < MAX_GENERATION {
      forall i | 0 <= i < |m'.slots| && m'.slots[i].None? && i !in m'.free
        ensures m'.generations[i] == MAX_GENERATION
      {
        assert m'.free[|m.free|] == p.input;
        assert i != p.input && i !in m.free;
      }
    }
  }

  lemma SlotsPartition(m: Slots)
    requires forall i | i in m.free :: i < |m.slots| && m.slots[i].None?
    ensures Below(|m.slots|) == Occupied(m) + Tombstones(m) + Elements(m.free)
    ensures Occupied(m) !! Tombstones(m) && (Occupied(m) + Tombstones(m)) !! Elements(m.free)
  {}

  /** Every slot is occupied, free or a tombstone. */
  lemma SlotCensus(m: Slots)
    requires m.WellFormed()
    ensures |m.slots| == |Occupied(m)| + |Tombstones(m)| + |m.free|
  {
    SlotsPartition(m);
    DistinctCount(m.free);
    DisjointCount(Occupied(m), Tombstones(m));
    DisjointCount(Occupied(m) + Tombstones(m), Elements(m.free));
  }

  lemma DisjointCount(a: set<nat>, b: set<nat>)
    requires a !! b
    ensures |a + b| == |a| + |b|
  {}

  /** The storage never exceeds the peak of concurrently live strips plus the tombstones. */
  ghost predicate WithinPeak(m: Slots, peak: nat) {
    m.WellFormed() && |Occupied(m)| <= peak && |m.slots| <= peak + |Tombstones(m)|
  }

  lemma AddStaysWithinPeak(m: Slots, id: string, peak: nat)
    requires WithinPeak(m, peak)
    ensures var m' := m.AddInput(id).0;
            WithinPeak(m', if |Occupied(m')| > peak then |Occupied(m')| else peak)
  {
    var (m', p) := m.AddInput(id);
    SlotCensus(m);
    if |m.free| > 0 {
      assert m.free == m'.free + [p.input];
      forall i: nat
        ensures i in Tombstones(m') <==> i in Tombstones(m)
      {
        assert i in m.free <==> i in m'.free || i == p.input;
      }
      assert Tombstones(m') == Tombstones(m);
      AddKeepsWellFormed(m, id);
    } else {
      assert Tombstones(m') == Tombstones(m);
      assert Occupied(m') == Occupied(m) + {p.input};
      AddKeepsWellFormed(m, id);
    }
  }

  lemma AddKeepsWellFormed(m: Slots, id: string)
    requires m.WellFormed()
    ensures m.AddInput(id).0.WellFormed()
  {
    var (m', p) := m.AddInput(id);
    if |m.free| > 0 {
      assert m.free == m'.free + [p.input];
      forall i | 0 <= i < |m'.slots| && m'.slots[i].None? && i !in m'.free
        ensures m'.generations[i] == MAX_GENERATION
      {
        assert i !in m.free;
      }
    }
  }

  lemma RemoveStaysWithinPeak(m: Slots, p: RoutePoint, peak: nat)
    requires WithinPeak(m, peak)
    ensures WithinPeak(m.RemoveInput(p), peak)
  {
    var m' := m.RemoveInput(p);
    RemoveKeepsWellFormed(m, p);
    if m.Names(p) {
      assert Occupied(m') == Occupied(m) - {p.input};
      assert Tombstones(m) <= Tombstones(m');
      SubsetCount(Tombstones(m), Tombstones(m'));
    }
  }

  lemma SubsetCount(a: set<nat>, b: set<nat>)
    requires a <= b
    ensures |a| <= |b|
  {
    assert b == a + (b - a);
  }
}
