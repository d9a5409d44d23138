/** What every bus operation keeps. */
module BusInvariant {
  import opened Mixer
  import opened MixerHandles
  import opened BusModel

  ghost predicate DistinctPoints<S>(routes: seq<(RoutePoint, S)>) {
    forall i, j | 0 <= i < j < |routes| :: routes[i].0 != routes[j].0
  }

  ghost predicate Carries<S>(routes: seq<(RoutePoint, S)>, p: RoutePoint) {
    exists i :: 0 <= i < |routes| && routes[i].0 == p
  }

  /** The occupied strips are exactly the distinct route points, all on the program. */
  ghost predicate Matched<S>(m: Slots, routes: seq<(RoutePoint, S)>) {
    && m.WellFormed()
    && DistinctPoints(routes)
    && (forall i | 0 <= i < |routes| :: m.Names(routes[i].0) && m.slots[routes[i].0.input].value.routed)
    && (forall x | 0 <= x < |m.slots| && m.slots[x].Some? :: Carries(routes, RoutePoint(x, m.generations[x])))
  }

  /** Every fading point is routed and still has an unfinished ramp. */
  ghost predicate Fading<S>(m: Slots, routes: seq<(RoutePoint, S)>, fading: seq<RoutePoint>) {
    && (forall i, j | 0 <= i < j < |fading| :: fading[i] != fading[j])
    && (forall i | 0 <= i < |fading| :: Carries(routes, fading[i]) && !FadeDone(m, fading[i]))
    && (forall i | 0 <= i < |fading| && m.Names(fading[i]) && m.slots[fading[i].input].value.ramp.Some? ::
          !m.slots[fading[i].input].value.ramp.value.Complete())
  }

  ghost predicate BusInv<S>(b: Bus<S>) {
    Matched(b.mixer, b.routes) && Fading(b.mixer, b.routes, b.fading) && Stored(b)
  }

  // ---- routes --------------------------------------------------------------------

  lemma {:induction false} StoreOfIsCarries<S>(routes: seq<(RoutePoint, S)>, p: RoutePoint)
    ensures StoreOf(routes, p).Some? <==> Carries(routes, p)
    ensures StoreOf(routes, p).Some? ==> (p, StoreOf(routes, p).value) in routes
  {
    if routes == [] {
    } else {
      StoreOfIsCarries(routes[1..], p);
      if routes[0].0 != p && Carries(routes, p) {
        var i :| 0 <= i < |routes| && routes[i].0 == p;
        assert routes[1..][i - 1].0 == p;
      }
    }
  }

  lemma {:induction false} RebindKeepsPoints<S>(routes: seq<(RoutePoint, S)>, p: RoutePoint, s: S)
    ensures var r := Rebind(routes, p, s);
            forall i | 0 <= i < |routes| :: r[i].0 == routes[i].0 && (r[i].1 == routes[i].1 || r[i].1 == s)
  {
    if routes == [] || routes[0].0 == p {
    } else {
      RebindKeepsPoints(routes[1..], p, s);
    }
  }

  /** Re-binding swaps the store of the one route carrying the point. */
  lemma {:induction false} ReboundAt<S>(routes: seq<(RoutePoint, S)>, p: RoutePoint, s: S, i: nat)
    requires DistinctPoints(routes) && i < |routes|
    ensures Rebind(routes, p, s)[i] == if routes[i].0 == p then (p, s) else routes[i]
  {
    if routes[0].0 == p {
      assert i > 0 ==> routes[0].0 != routes[i].0;
    } else if i == 0 {
    } else {
      assert routes[1..][i - 1] == routes[i];
      assert forall j, k | 0 <= j < k < |routes[1..]| :: routes[1..][j].0 == routes[j + 1].0 && routes[1..][k].0 == routes[k + 1].0;
      ReboundAt(routes[1..], p, s, i - 1);
    }
  }

  /** Dropping a point keeps exactly the other routes. */
  lemma {:induction false} WithoutIsOthers<S>(routes: seq<(RoutePoint, S)>, p: RoutePoint)
    ensures var kept := Without(routes, p);
            && (forall i | 0 <= i < |kept| :: kept[i] in routes && kept[i].0 != p)
            && (forall i | 0 <= i < |routes| && routes[i].0 != p :: routes[i] in kept)
    ensures DistinctPoints(routes) ==> DistinctPoints(Without(routes, p))
  {
    if routes == [] {
    } else {
      WithoutIsOthers(routes[1..], p);
      var kept, rest := Without(routes, p), Without(routes[1..], p);
      assert routes == [routes[0]] + routes[1..];
      forall i | 0 <= i < |routes| && routes[i].0 != p
        ensures routes[i] in kept
      {
        assert i > 0 ==> routes[i] == routes[1..][i - 1];
      }
      if DistinctPoints(routes) && routes[0].0 != p {
        forall j | 0 <= j < |rest|
          ensures rest[j].0 != routes[0].0
        {
          var k :| 0 <= k < |routes[1..]| && routes[1..][k] == rest[j];
          assert routes[k + 1] == rest[j];
        }
      }
    }
  }

  // ---- sweeping finished fades -----------------------------------------------------

  predicate Swept(m: Slots, todo: seq<RoutePoint>, p: RoutePoint) {
    p in todo && FadeDone(m, p)
  }

  lemma RemoveKeepsNames<S>(m: Slots, routes: seq<(RoutePoint, S)>, p: RoutePoint)
    requires Matched(m, routes) && Carries(routes, p)
    ensures m.Names(p)
    ensures var m', routes' := m.RemoveInput(p), Without(routes, p);
            forall i | 0 <= i < |routes'| :: m'.Names(routes'[i].0) && m'.slots[routes'[i].0.input].value.routed
  {
    WithoutIsOthers(routes, p);
    var routes' := Without(routes, p);
    forall i | 0 <= i < |routes'|
      ensures m.Names(routes'[i].0) && routes'[i].0.input != p.input && m.slots[routes'[i].0.input].value.routed
    {
      assert routes'[i] in routes;
    }
  }

  lemma StillCarried<S>(routes: seq<(RoutePoint, S)>, p: RoutePoint, q: RoutePoint)
    requires Carries(routes, q) && q != p
    ensures Carries(Without(routes, p), q)
  {
    WithoutIsOthers(routes, p);
    hide Without;
    var i :| 0 <= i < |routes| && routes[i].0 == q;
    var j :| 0 <= j < |Without(routes, p)| && Without(routes, p)[j] == routes[i];
  }

  lemma RemoveKeepsMatched<S>(m: Slots, routes: seq<(RoutePoint, S)>, p: RoutePoint)
    requires Matched(m, routes) && Carries(routes, p)
    ensures Matched(m.RemoveInput(p), Without(routes, p))
    ensures m.Names(p)
  {
    var m', routes' := m.RemoveInput(p), Without(routes, p);
    hide Carries, Without;
    RemoveKeepsWellFormed(m, p);
    WithoutIsOthers(routes, p);
    RemoveKeepsNames(m, routes, p);
    forall x | 0 <= x < |m'.slots| && m'.slots[x].Some?
      ensures Carries(routes', RoutePoint(x, m'.generations[x]))
    {
      StillCarried(routes, p, RoutePoint(x, m.generations[x]));
    }
  }

  /** `m'`, `routes'`, `kept` are what is left of `m`, `routes`, `todo` when exactly the
      finished points are gone. */
  ghost predicate IsSweep<S>(m: Slots, routes: seq<(RoutePoint, S)>, todo: seq<RoutePoint>,
                                   m': Slots, routes': seq<(RoutePoint, S)>, kept: seq<RoutePoint>) {
    && Matched(m', routes')
    && |m.slots| == |m.generations| == |m'.slots|
    && (forall x | 0 <= x < |m.slots| ::
          if Swept(m, todo, RoutePoint(x, m.generations[x])) then m'.slots[x].None?
          else m'.slots[x] == m.slots[x] && m'.generations[x] == m.generations[x])
    && (forall i | 0 <= i < |routes'| :: routes'[i] in routes && !Swept(m, todo, routes'[i].0))
    && (forall i | 0 <= i < |routes| && !Swept(m, todo, routes[i].0) :: routes[i] in routes')
    && (forall i | 0 <= i < |kept| :: kept[i] in todo && !FadeDone(m, kept[i]))
    && (forall i, j | 0 <= i < j < |kept| :: kept[i] != kept[j])
  }

  ghost predicate AllCarried<S>(routes: seq<(RoutePoint, S)>, todo: seq<RoutePoint>) {
    && (forall i, j | 0 <= i < j < |todo| :: todo[i] != todo[j])
    && (forall i | 0 <= i < |todo| :: Carries(routes, todo[i]))
  }

  lemma CarriedIsNamed<S>(m: Slots, routes: seq<(RoutePoint, S)>, p: RoutePoint)
    requires Matched(m, routes) && Carries(routes, p)
    ensures m.Names(p)
  {
    var j :| 0 <= j < |routes| && routes[j].0 == p;
  }

  lemma CarriedAfterRemoval<S>(m: Slots, routes: seq<(RoutePoint, S)>, t: RoutePoint, q: RoutePoint)
    requires Matched(m, routes) && Carries(routes, t) && Carries(routes, q) && q != t
    ensures Carries(Without(routes, t), q)
    ensures FadeDone(m.RemoveInput(t), q) == FadeDone(m, q)
  {
    StillCarried(routes, t, q);
    CarriedIsNamed(m, routes, t);
    CarriedIsNamed(m, routes, q);
    hide Carries, Without;
  }

  lemma SweepDoneStep<S>(m: Slots, routes: seq<(RoutePoint, S)>, t: RoutePoint, rest: seq<RoutePoint>,
                               m': Slots, routes': seq<(RoutePoint, S)>, kept: seq<RoutePoint>)
    requires Matched(m, routes) && AllCarried(routes, [t] + rest) && FadeDone(m, t)
    requires IsSweep(m.RemoveInput(t), Without(routes, t), rest, m', routes', kept)
    ensures IsSweep(m, routes, [t] + rest, m', routes', kept)
  {
    var todo := [t] + rest;
    var m1, routes1 := m.RemoveInput(t), Without(routes, t);
    WithoutIsOthers(routes, t);
    assert todo[0] == t;
    forall q | q in rest
      ensures FadeDone(m1, q) == FadeDone(m, q)
    {
      var i :| 0 <= i < |rest| && rest[i] == q;
      assert todo[i + 1] == q;
      CarriedAfterRemoval(m, routes, t, q);
    }
    assert m.Names(t) by {
      RemoveKeepsMatched(m, routes, t);
    }
    forall x | 0 <= x < |m.slots|
      ensures if Swept(m, todo, RoutePoint(x, m.generations[x])) then m'.slots[x].None?
              else m'.slots[x] == m.slots[x] && m'.generations[x] == m.generations[x]
    {
      var q := RoutePoint(x, m.generations[x]);
      if q == t {
        assert m1.slots[x].None?;
      } else {
        assert x != t.input && m1.generations[x] == m.generations[x];
        assert Swept(m, todo, q) == Swept(m1, rest, q);
      }
    }
  }

  lemma SweepKeptStep<S>(m: Slots, routes: seq<(RoutePoint, S)>, t: RoutePoint, rest: seq<RoutePoint>,
                               m': Slots, routes': seq<(RoutePoint, S)>, kept: seq<RoutePoint>)
    requires AllCarried(routes, [t] + rest) && !FadeDone(m, t)
    requires IsSweep(m, routes, rest, m', routes', kept)
    ensures IsSweep(m, routes, [t] + rest, m', routes', [t] + kept)
  {
    var todo := [t] + rest;
    assert todo[0] == t;
    assert forall q :: Swept(m, todo, q) == Swept(m, rest, q);
    forall i | 0 <= i < |kept|
      ensures kept[i] != t
    {
      var j :| 0 <= j < |rest| && rest[j] == kept[i];
      assert todo[j + 1] == kept[i];
    }
  }

  /** A sweep removes exactly the finished points, from the mixer and from the routes, and
      keeps the rest untouched. */
  lemma {:induction false} SweepRemovesFinished<S>(m: Slots, routes: seq<(RoutePoint, S)>, todo: seq<RoutePoint>)
    requires Matched(m, routes) && AllCarried(routes, todo)
    ensures var (m', routes', kept) := Sweep(m, routes, todo);
            IsSweep(m, routes, todo, m', routes', kept)
    decreases |todo|
  {
    if todo == [] {
    } else {
      var t, rest := todo[0], todo[1..];
      assert todo == [t] + rest;
      assert forall i | 0 <= i < |rest| :: rest[i] == todo[i + 1];
      if FadeDone(m, t) {
        RemoveKeepsMatched(m, routes, t);
        forall i | 0 <= i < |rest|
          ensures Carries(Without(routes, t), rest[i])
        {
          CarriedAfterRemoval(m, routes, t, rest[i]);
        }
        var (m', routes', kept) := Sweep(m.RemoveInput(t), Without(routes, t), rest);
        SweepRemovesFinished(m.RemoveInput(t), Without(routes, t), rest);
        SweepDoneStep(m, routes, t, rest, m', routes', kept);
      } else {
        var (m', routes', kept) := Sweep(m, routes, rest);
        SweepRemovesFinished(m, routes, rest);
        SweepKeptStep(m, routes, t, rest, m', routes', kept);
      }
    }
  }
}
