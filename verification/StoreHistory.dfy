/** What a store holds after any run of writes, in terms of the writes alone. */
module StoreHistory {
  import opened Audio
  import opened Store

  /** One write by the decode thread: `publish` / `publish_samples`, or `publish_at`. */
  datatype Write = Append(samples: seq<real>) | Place(at: int, samples: seq<real>) {
    /** A ragged buffer is refused and leaves the window alone. */
    predicate Accepted(channels: nat)
      requires channels > 0
    {
      |samples| % channels == 0
    }
  }

  /** The window one write leaves, as the store's methods state it. */
  function Apply(w: RingSnapshot, capacity: nat, channels: nat, op: Write): RingSnapshot
    requires channels > 0
  {
    if !op.Accepted(channels) then w else
    match op
    case Append(samples) => Written(w, capacity, channels, w.HeadFrame(channels), samples)
    case Place(at, samples) =>
      if |samples| / channels == 0 then w else Written(w, capacity, channels, Max(at, 0), samples)
  }

  /** The window of a fresh store after a run of writes. */
  function Replay(capacity: nat, channels: nat, ops: seq<Write>): RingSnapshot
    requires channels > 0
  {
    if ops == [] then RingSnapshot(0, []) else
      Apply(Replay(capacity, channels, ops[..|ops| - 1]), capacity, channels, ops[|ops| - 1])
  }

  /** A store driven through a run of writes ends on the replayed window, its cursor
      untouched. */
  method Deliver(format: AudioFormat, capacity: nat, ops: seq<Write>) returns (store: AudioStore)
    ensures fresh(store) && store.Valid() && store.readFrame == 0
    ensures store.window == Replay(store.capacityFrames, format.Channels(), ops) && store.capacityFrames == Max(capacity, 1)
  {
    hide Written;
    var channels := format.Channels();
    store := new AudioStore(format, capacity);
    for i := 0 to |ops|
      invariant fresh(store) && store.Valid() && store.readFrame == 0
      invariant store.format == format && store.capacityFrames == Max(capacity, 1)
      invariant store.window == Replay(store.capacityFrames, channels, ops[..i])
    {
      assert ops[..i + 1][..i] == ops[..i];
      match ops[i]
      case Append(samples) =>
        var _ := store.PublishSamples(samples);
      case Place(at, samples) =>
        // a ragged buffer never becomes a block
        if |samples| % channels == 0 {
          var _ := store.PublishAt(at, PcmData(format, samples));
        }
    }
    assert ops[..|ops|] == ops;
  }

  /** The write head, from the writes alone. */
  function Head(channels: nat, ops: seq<Write>): nat
    requires channels > 0
  {
    if ops == [] then 0 else
      var before, op := Head(channels, ops[..|ops| - 1]), ops[|ops| - 1];
      var frames := |op.samples| / channels;
      if !op.Accepted(channels) || frames == 0 then before else Max(before, Lands(before, op) + frames)
  }

  /** The frame a write lands on when the head stands at `head`. */
  function Lands(head: nat, op: Write): nat {
    match op
    case Append(_) => head
    case Place(at, _) => Max(at, 0)
  }

  predicate Covers(channels: nat, head: nat, op: Write, s: int)
    requires channels > 0
  {
    op.Accepted(channels) && RingSnapshot(Lands(head, op), op.samples).Holds(channels, s)
  }

  /** The most recent write covering absolute sample `s`; silence when there is none. */
  function LastWrite(channels: nat, ops: seq<Write>, s: int): real
    requires channels > 0
  {
    if ops == [] then 0.0 else
      var prefix, op := ops[..|ops| - 1], ops[|ops| - 1];
      var head := Head(channels, prefix);
      if Covers(channels, head, op, s) then RingSnapshot(Lands(head, op), op.samples).At(channels, s)
      else LastWrite(channels, prefix, s)
  }

  lemma {:induction false} NothingPastHead(channels: nat, ops: seq<Write>, s: int)
    requires channels > 0 && s >= Head(channels, ops) * channels
    ensures LastWrite(channels, ops, s) == 0.0
  {
    if ops == [] {
    } else {
      var prefix, op := ops[..|ops| - 1], ops[|ops| - 1];
      var head := Head(channels, prefix);
      ScaleMono(head, Head(channels, ops), channels);
      NothingPastHead(channels, prefix, s);
      if op.Accepted(channels) {
        var frames := |op.samples| / channels;
        FrameCount(|op.samples|, channels);
        Distribute(Lands(head, op), frames, channels);
        if frames > 0 {
          ScaleMono(Lands(head, op) + frames, Head(channels, ops), channels);
        }
      }
    }
  }

  /** `w` is the last `capacity` frames below the head of `ops`, each sample the last write
      that covered it (silence when none did). */
  ghost predicate IsLastWrites(w: RingSnapshot, capacity: nat, channels: nat, ops: seq<Write>)
    requires channels > 0
  {
    var head := Head(channels, ops);
    && w.base == Max(0, head - capacity)
    && |w.samples| == (head - w.base) * channels
    && w.HeadFrame(channels) == head
    && forall s | w.Holds(channels, s) :: w.At(channels, s) == LastWrite(channels, ops, s)
  }

  /** Drop-oldest over whole runs: whatever was written, by appends and placements in any
      mix, the window holds exactly the last writes below the head. */
  lemma {:induction false} WindowIsLastWrites(capacity: nat, channels: nat, ops: seq<Write>)
    requires capacity >= 1 && channels > 0
    ensures IsLastWrites(Replay(capacity, channels, ops), capacity, channels, ops)
  {
    hide Written, IsLastWrites;
    if ops == [] {
      EmptyIsLastWrites(capacity, channels);
    } else {
      var prefix, op := ops[..|ops| - 1], ops[|ops| - 1];
      assert ops == prefix + [op];
      WindowIsLastWrites(capacity, channels, prefix);
      var w := Replay(capacity, channels, prefix);
      if op.Accepted(channels) && |op.samples| > 0 {
        FrameCount(|op.samples|, channels);
        WriteKeepsLastWrites(w, capacity, channels, prefix, op);
      } else {
        NoWriteKeepsLastWrites(w, capacity, channels, prefix, op);
      }
    }
  }

  lemma EmptyIsLastWrites(capacity: nat, channels: nat)
    requires capacity >= 1 && channels > 0
    ensures IsLastWrites(RingSnapshot(0, []), capacity, channels, [])
  {}

  lemma NoWriteKeepsLastWrites(w: RingSnapshot, capacity: nat, channels: nat, prefix: seq<Write>, op: Write)
    requires capacity >= 1 && channels > 0 && IsLastWrites(w, capacity, channels, prefix)
    requires !op.Accepted(channels) || |op.samples| == 0
    ensures Apply(w, capacity, channels, op) == w && IsLastWrites(w, capacity, channels, prefix + [op])
  {
    var ops := prefix + [op];
    assert ops[..|ops| - 1] == prefix;
    assert forall s :: LastWrite(channels, ops, s) == LastWrite(channels, prefix, s);
    if op.Accepted(channels) {
      assert op.samples == [];
      WholeFrames(Head(channels, prefix) - w.base, channels);
      EmptyWriteIsNoop(w, capacity, channels);
    }
  }

  lemma WriteKeepsLastWrites(w: RingSnapshot, capacity: nat, channels: nat, prefix: seq<Write>, op: Write)
    requires capacity >= 1 && channels > 0 && IsLastWrites(w, capacity, channels, prefix)
    requires op.Accepted(channels) && |op.samples| / channels > 0
    ensures IsLastWrites(Apply(w, capacity, channels, op), capacity, channels, prefix + [op])
  {
    var ops := prefix + [op];
    assert ops[..|ops| - 1] == prefix;
    var head, head' := Head(channels, prefix), Head(channels, ops);
    var at := Lands(head, op);
    var w' := Written(w, capacity, channels, at, op.samples);
    FrameCount(|op.samples|, channels);
    WholeFrames(head' - w'.base, channels);
    Distribute(w.base, head - w.base, channels);
    ScaleMono(w.base, w'.base, channels);
    forall s | w'.Holds(channels, s)
      ensures w'.At(channels, s) == LastWrite(channels, ops, s)
    {
      assert w'.At(channels, s) == Overlay(w, channels, at, op.samples, s);
      if !Covers(channels, head, op, s) && !w.Holds(channels, s) {
        NothingPastHead(channels, prefix, s);
      }
    }
  }

  lemma EmptyWriteIsNoop(w: RingSnapshot, capacity: nat, channels: nat)
    requires channels > 0
    requires |w.samples| % channels == 0 && |w.samples| / channels <= capacity
    ensures Written(w, capacity, channels, w.HeadFrame(channels), []) == w
  {
    var r := Written(w, capacity, channels, w.HeadFrame(channels), []);
    FrameCount(|w.samples|, channels);
    assert r.base == w.base;
    forall k | 0 <= k < |w.samples|
      ensures r.samples[k] == w.samples[k]
    {
      assert r.samples[k] == Overlay(w, channels, w.HeadFrame(channels), [], w.base * channels + k);
    }
    assert r.samples == w.samples;
  }

  // ---- reordered delivery ------------------------------------------------------

  /** Placements whose frame ranges never overlap. */
  ghost predicate DisjointPlacements(channels: nat, ops: seq<Write>)
    requires channels > 0
  {
    && (forall i | 0 <= i < |ops| :: ops[i].Place?)
    && (forall i, j, s | 0 <= i < j < |ops| :: Covers(channels, 0, ops[i], s) ==> !Covers(channels, 0, ops[j], s))
  }

  function End(channels: nat, op: Write): nat
    requires channels > 0 && op.Place?
  {
    if op.Accepted(channels) && |op.samples| / channels > 0 then Lands(0, op) + |op.samples| / channels else 0
  }

  /** With placements alone the head is the furthest end, whatever their order. */
  lemma {:induction false} HeadIsFurthestEnd(channels: nat, ops: seq<Write>) returns (i: int)
    requires channels > 0 && forall j | 0 <= j < |ops| :: ops[j].Place?
    ensures forall j | 0 <= j < |ops| :: End(channels, ops[j]) <= Head(channels, ops)
    ensures -1 <= i < |ops|
    ensures Head(channels, ops) == if i == -1 then 0 else End(channels, ops[i])
  {
    if ops == [] {
      return -1;
    }
    var last := |ops| - 1;
    i := HeadIsFurthestEnd(channels, ops[..last]);
    assert forall j | 0 <= j < last :: ops[j] == ops[..last][j];
    if Head(channels, ops) != Head(channels, ops[..last]) {
      i := last;
    }
  }

  /** The last write at `s` is one of the placements covering it, if there is any. */
  lemma {:induction false} LastWriteIsSomeCover(channels: nat, ops: seq<Write>, s: int) returns (i: int)
    requires channels > 0 && forall j | 0 <= j < |ops| :: ops[j].Place?
    ensures -1 <= i < |ops|
    ensures i == -1 ==> LastWrite(channels, ops, s) == 0.0 && forall j | 0 <= j < |ops| :: !Covers(channels, 0, ops[j], s)
    ensures i >= 0 ==> Covers(channels, 0, ops[i], s)
                       && LastWrite(channels, ops, s) == RingSnapshot(Lands(0, ops[i]), ops[i].samples).At(channels, s)
  {
    if ops == [] {
      return -1;
    }
    var last := |ops| - 1;
    i := LastWriteIsSomeCover(channels, ops[..last], s);
    assert forall j | 0 <= j < last :: ops[j] == ops[..last][j];
    assert Covers(channels, Head(channels, ops[..last]), ops[last], s) == Covers(channels, 0, ops[last], s);
    if Covers(channels, 0, ops[last], s) {
      i := last;
    }
  }

  lemma SameMultisetIndex(a: seq<Write>, b: seq<Write>, j: nat) returns (i: nat)
    requires multiset(a) == multiset(b) && j < |b|
    ensures i < |a| && a[i] == b[j]
  {
    assert b[j] in multiset(a);
    i :| 0 <= i < |a| && a[i] == b[j];
  }

  lemma HeadUpTo(channels: nat, a: seq<Write>, b: seq<Write>)
    requires channels > 0 && multiset(a) == multiset(b)
    requires forall j | 0 <= j < |a| :: a[j].Place?
    requires forall j | 0 <= j < |b| :: b[j].Place?
    ensures Head(channels, b) <= Head(channels, a)
  {
    var ia := HeadIsFurthestEnd(channels, a);
    var j := HeadIsFurthestEnd(channels, b);
    if j >= 0 {
      var i := SameMultisetIndex(a, b, j);
    }
  }

  lemma SameLastWrite(channels: nat, a: seq<Write>, b: seq<Write>, s: int)
    requires channels > 0 && multiset(a) == multiset(b)
    requires DisjointPlacements(channels, a)
    requires forall j | 0 <= j < |b| :: b[j].Place?
    ensures LastWrite(channels, a, s) == LastWrite(channels, b, s)
  {
    var i := LastWriteIsSomeCover(channels, a, s);
    var j := LastWriteIsSomeCover(channels, b, s);
    if j >= 0 {
      var k := SameMultisetIndex(a, b, j);
      assert i == k;
    } else if i >= 0 {
      var k := SameMultisetIndex(b, a, i);
      assert false;
    }
  }

  lemma SameHistory(channels: nat, a: seq<Write>, b: seq<Write>)
    requires channels > 0 && multiset(a) == multiset(b) && DisjointPlacements(channels, a)
    ensures Head(channels, a) == Head(channels, b)
    ensures forall s :: LastWrite(channels, a, s) == LastWrite(channels, b, s)
  {
    hide LastWrite, Head, Covers;
    forall j | 0 <= j < |b|
      ensures b[j].Place?
    {
      var i := SameMultisetIndex(a, b, j);
    }
    HeadUpTo(channels, a, b);
    HeadUpTo(channels, b, a);
    forall s
      ensures LastWrite(channels, a, s) == LastWrite(channels, b, s)
    {
      SameLastWrite(channels, a, b, s);
    }
  }

  /** Reordered delivery converges: pairwise-disjoint blocks delivered in any two orders
      leave the identical window. */
  lemma DeliveryOrderIsIrrelevant(capacity: nat, channels: nat, a: seq<Write>, b: seq<Write>)
    requires capacity >= 1 && channels > 0
    requires DisjointPlacements(channels, a) && multiset(a) == multiset(b)
    ensures Replay(capacity, channels, a) == Replay(capacity, channels, b)
  {
    SameHistory(channels, a, b);
    hide Replay, LastWrite, Head, DisjointPlacements, IsLastWrites;
    WindowIsLastWrites(capacity, channels, a);
    WindowIsLastWrites(capacity, channels, b);
    LastWritesDecide(Replay(capacity, channels, a), Replay(capacity, channels, b), capacity, channels, a, b);
  }

  lemma LastWritesDecide(u: RingSnapshot, v: RingSnapshot, capacity: nat, channels: nat, a: seq<Write>, b: seq<Write>)
    requires channels > 0 && IsLastWrites(u, capacity, channels, a) && IsLastWrites(v, capacity, channels, b)
    requires Head(channels, a) == Head(channels, b)
    requires forall s :: LastWrite(channels, a, s) == LastWrite(channels, b, s)
    ensures u == v
  {
    hide LastWrite, Head;
    forall s | u.Holds(channels, s)
      ensures u.At(channels, s) == v.At(channels, s)
    {
      assert v.Holds(channels, s);
    }
    SameSoundSameWindow(u, v, channels);
  }

  lemma SameSoundSameWindow(a: RingSnapshot, b: RingSnapshot, channels: nat)
    requires a.base == b.base && |a.samples| == |b.samples|
    requires forall s | a.Holds(channels, s) :: a.At(channels, s) == b.At(channels, s)
    ensures a == b
  {
    forall k | 0 <= k < |a.samples|
      ensures a.samples[k] == b.samples[k]
    {
      assert a.Holds(channels, a.base * channels + k);
    }
  }
}
