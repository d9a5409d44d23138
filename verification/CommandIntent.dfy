/** What operators command is what the working config, and in the end the drive, shows. */
module CommandIntent {
  import opened Audio
  import opened CommandDrain

  /** Of a list of recalls, number `i` is the last that names `cell`. */
  predicate LastFor(recalls: seq<Recall>, cell: CellId, i: nat) {
    i < |recalls| && recalls[i].cell == cell && forall j | i < j < |recalls| :: recalls[j].cell != cell
  }

  /** `after` is `before` with each known cell at the input last recalled to it. */
  ghost predicate Overwritten(before: Bindings, recalls: seq<Recall>, after: Bindings) {
    && after.Keys == before.Keys
    && (forall cell, i: nat | cell in before && LastFor(recalls, cell, i) :: after[cell] == Some(recalls[i].inputId))
    && (forall cell | cell in before && (forall j | 0 <= j < |recalls| :: recalls[j].cell != cell) :: after[cell] == before[cell])
  }

  lemma OverwrittenByOne(before: Bindings, cell: CellId, source: SourceId)
    ensures Overwritten(before, [Recall(cell, source)], Mirrored(before, cell, source))
  {
    var recalls := [Recall(cell, source)];
    assert recalls[0].cell == cell;
  }

  lemma OverwrittenByNone(before: Bindings)
    ensures Overwritten(before, [], before)
  {}

  /** Writes after writes. */
  lemma OverwrittenInTurn(before: Bindings, first: seq<Recall>, between: Bindings, later: seq<Recall>, after: Bindings)
    requires Overwritten(before, first, between) && Overwritten(between, later, after)
    ensures Overwritten(before, first + later, after)
  {
    var all := first + later;
    forall cell, i: nat | cell in before && LastFor(all, cell, i)
      ensures after[cell] == Some(all[i].inputId)
    {
      if i >= |first| {
        forall j | i - |first| < j < |later|
          ensures later[j].cell != cell
        {
          assert all[|first| + j] == later[j];
        }
        assert LastFor(later, cell, i - |first|);
      } else {
        assert forall j | 0 <= j < |later| :: all[|first| + j] == later[j];
        assert forall j | i < j < |first| :: all[j] == first[j];
        assert LastFor(first, cell, i);
      }
    }
    forall cell | cell in before && forall j | 0 <= j < |all| :: all[j].cell != cell
      ensures after[cell] == before[cell]
    {
      assert forall j | 0 <= j < |first| :: all[j] == first[j];
      assert forall j | 0 <= j < |later| :: all[|first| + j] == later[j];
    }
  }

  // ---- one command ---------------------------------------------------------------------------------

  lemma {:induction false} RecalledIsOverwritten(st: State, recalls: seq<Recall>, n: nat)
    requires n <= |recalls|
    ensures Overwritten(st.config, recalls[..n], Recalled(st, recalls, n).config)
    ensures Recalled(st, recalls, n).armed == st.armed
  {
    hide Overwritten;
    if n == 0 {
      OverwrittenByNone(st.config);
    } else {
      RecalledIsOverwritten(st, recalls, n - 1);
      var before := Recalled(st, recalls, n - 1);
      OverwrittenByOne(before.config, recalls[n - 1].cell, recalls[n - 1].inputId);
      assert recalls[n - 1] == Recall(recalls[n - 1].cell, recalls[n - 1].inputId);
      OverwrittenInTurn(st.config, recalls[..n - 1], before.config, [recalls[n - 1]], Recalled(st, recalls, n).config);
      assert recalls[..n] == recalls[..n - 1] + [recalls[n - 1]];
    }
  }

  lemma {:induction false} FirstOfItsName(salvos: seq<Salvo>, k: nat)
    requires k < |salvos| && forall j | 0 <= j < k :: salvos[j].id != salvos[k].id
    ensures FindSalvo(salvos, salvos[k].id) == Some(salvos[k])
  {
    if k == 0 {
    } else {
      assert salvos[0].id != salvos[k].id && salvos[1..][k - 1] == salvos[k];
      FirstOfItsName(salvos[1..], k - 1);
    }
  }

  /** Taking a known salvo, named or armed, puts every known cell it recalls on the input it last
      recalls to it, leaves the others, and disarms. */
  lemma TakenSalvoIsMirrored(salvos: seq<Salvo>, st: State, named: Option<SalvoId>, k: nat)
    requires k < |salvos| && forall j | 0 <= j < k :: salvos[j].id != salvos[k].id
    requires (if named.Some? then named else st.armed) == Some(salvos[k].id)
    ensures var after := Handled(salvos, st, TakeSalvo(named));
            Overwritten(st.config, salvos[k].sources, after.config) && after.armed == None
  {
    FirstOfItsName(salvos, k);
    var recalls := salvos[k].sources;
    RecalledIsOverwritten(st, recalls, |recalls|);
    assert recalls[..|recalls|] == recalls;
  }

  /** A take of nothing known changes nothing. */
  lemma FruitlessTakeIsHeld(salvos: seq<Salvo>, st: State, named: Option<SalvoId>)
    requires var target := if named.Some? then named else st.armed;
             target.None? || forall j | 0 <= j < |salvos| :: salvos[j].id != target.value
    ensures Handled(salvos, st, TakeSalvo(named)) == st
  {}

  /** A routed cell shows its source in the config at once, any other what it showed; an unknown
      cell is no route at all. */
  lemma RouteIsMirrored(salvos: seq<Salvo>, st: State, cell: CellId, source: StreamRef)
    ensures var after := Handled(salvos, st, RouteVideo(cell, source));
            && Overwritten(st.config, [Recall(cell, source.inputId)], after.config) && after.armed == st.armed
            && (cell !in st.config ==> after == st)
            && (cell in st.config ==> after.pending != [] && after.pending[|after.pending| - 1] == Video(cell, source))
  {
    OverwrittenByOne(st.config, cell, source.inputId);
  }

  // ---- which salvo is armed -------------------------------------------------------------------------

  predicate Known(salvos: seq<Salvo>, id: SalvoId) {
    exists k :: 0 <= k < |salvos| && salvos[k].id == id
  }

  /** Commands that leave what is armed: routes, and salvo commands on salvos that do not exist. */
  predicate LeavesArmed(salvos: seq<Salvo>, c: Command) {
    match c
    case RouteVideo(_, _) => true
    case ArmSalvo(id) => !Known(salvos, id)
    case TakeSalvo(named) => named.Some? && !Known(salvos, named.value)
    case CancelSalvo(_) => false
  }

  lemma FoundIsKnown(salvos: seq<Salvo>, id: SalvoId)
    ensures FindSalvo(salvos, id).Some? <==> Known(salvos, id)
  {
    var found := FindSalvo(salvos, id);
    if found.Some? {
      var k :| 0 <= k < |salvos| && salvos[k] == found.value;
    }
  }

  lemma ArmedAfter(salvos: seq<Salvo>, st: State, c: Command)
    requires st.armed.Some? ==> Known(salvos, st.armed.value)
    ensures var after := Handled(salvos, st, c);
            && (LeavesArmed(salvos, c) ==> after.armed == st.armed)
            && (c.ArmSalvo? && Known(salvos, c.salvo) ==> after.armed == Some(c.salvo))
            && (!LeavesArmed(salvos, c) && !(c.ArmSalvo? && Known(salvos, c.salvo)) ==> after.armed == None)
            && (after.armed.Some? ==> Known(salvos, after.armed.value))
  {
    match c
    case RouteVideo(_, _) =>
    case ArmSalvo(id) => FoundIsKnown(salvos, id);
    case CancelSalvo(_) =>
    case TakeSalvo(named) =>
      var target := if named.Some? then named else st.armed;
      if target.Some? {
        FoundIsKnown(salvos, target.value);
        var found := FindSalvo(salvos, target.value);
        if found.Some? {
          RecalledIsOverwritten(st, found.value.sources, |found.value.sources|);
        }
      }
  }

  /** Command `k` arms `id` and nothing after it re-arms, takes or cancels. */
  ghost predicate LastArms(salvos: seq<Salvo>, commands: seq<Command>, id: SalvoId, k: nat) {
    && k < |commands| && commands[k] == ArmSalvo(id) && Known(salvos, id)
    && forall j | k < j < |commands| :: LeavesArmed(salvos, commands[j])
  }

  /** What an unnamed take takes: after any commands, the salvo armed is the one last armed and not
      taken or cancelled since, or the one armed before them if none of them says otherwise. */
  lemma {:induction false} ArmedIff(salvos: seq<Salvo>, st: State, commands: seq<Command>, id: SalvoId)
    requires st.armed.Some? ==> Known(salvos, st.armed.value)
    ensures var after := Drained(salvos, st, commands);
            && (after.armed.Some? ==> Known(salvos, after.armed.value))
            && (after.armed == Some(id)
                <==> (exists k: nat :: LastArms(salvos, commands, id, k))
                     || (st.armed == Some(id) && forall j | 0 <= j < |commands| :: LeavesArmed(salvos, commands[j])))
  {
    if commands == [] {
    } else {
      var rest, c := commands[..|commands| - 1], commands[|commands| - 1];
      ArmedIff(salvos, st, rest, id);
      ArmedAfter(salvos, Drained(salvos, st, rest), c);
      hide Handled, Known, FindSalvo;
      if LeavesArmed(salvos, c) {
        forall k: nat
          ensures LastArms(salvos, commands, id, k) <==> LastArms(salvos, rest, id, k)
        {
          LastArmsBefore(salvos, rest, c, id, k);
        }
      } else if c == ArmSalvo(id) {
        assert LastArms(salvos, commands, id, |rest|);
      } else {
        forall k: nat
          ensures !LastArms(salvos, commands, id, k)
        {
          if k < |rest| {
            assert !LeavesArmed(salvos, commands[|rest|]);
          }
        }
      }
    }
  }

  lemma LastArmsBefore(salvos: seq<Salvo>, rest: seq<Command>, c: Command, id: SalvoId, k: nat)
    requires LeavesArmed(salvos, c)
    ensures LastArms(salvos, rest + [c], id, k) <==> LastArms(salvos, rest, id, k)
  {
    var commands := rest + [c];
    assert commands[|rest|] == c && forall j | 0 <= j < |rest| :: commands[j] == rest[j];
    hide Known;
    if LastArms(salvos, commands, id, k) {
      assert k < |rest|;
      forall j | k < j < |rest|
        ensures LeavesArmed(salvos, rest[j])
      {
        assert LeavesArmed(salvos, commands[j]);
      }
    }
  }

  // ---- over whole runs -------------------------------------------------------------------------------

  /** What one command recalls, with `armed` armed. */
  function Commanded(salvos: seq<Salvo>, armed: Option<SalvoId>, c: Command): seq<Recall> {
    match c
    case RouteVideo(cell, source) => [Recall(cell, source.inputId)]
    case TakeSalvo(named) =>
      var target := if named.Some? then named else armed;
      if target.Some? && FindSalvo(salvos, target.value).Some? then FindSalvo(salvos, target.value).value.sources else []
    case _ => []
  }

  /** What a run of commands recalls, in order. */
  function AllCommanded(salvos: seq<Salvo>, st: State, commands: seq<Command>): seq<Recall> {
    if commands == [] then [] else
      var rest := commands[..|commands| - 1];
      AllCommanded(salvos, st, rest) + Commanded(salvos, Drained(salvos, st, rest).armed, commands[|commands| - 1])
  }

  lemma OneIsMirrored(salvos: seq<Salvo>, st: State, c: Command)
    ensures Overwritten(st.config, Commanded(salvos, st.armed, c), Handled(salvos, st, c).config)
  {
    hide Overwritten;
    match c
    case RouteVideo(cell, source) => RouteIsMirrored(salvos, st, cell, source);
    case ArmSalvo(_) => OverwrittenByNone(st.config);
    case CancelSalvo(_) => OverwrittenByNone(st.config);
    case TakeSalvo(named) =>
      OverwrittenByNone(st.config);
      var target := if named.Some? then named else st.armed;
      if target.Some? && FindSalvo(salvos, target.value).Some? {
        var recalls := FindSalvo(salvos, target.value).value.sources;
        RecalledIsOverwritten(st, recalls, |recalls|);
        assert recalls[..|recalls|] == recalls;
      }
  }

  /** After any commands the config shows, on every cell, the input last commanded for it. */
  lemma {:induction false} MirrorIsLastCommanded(salvos: seq<Salvo>, st: State, commands: seq<Command>)
    ensures Overwritten(st.config, AllCommanded(salvos, st, commands), Drained(salvos, st, commands).config)
  {
    hide Overwritten, Handled, Commanded;
    if commands == [] {
      OverwrittenByNone(st.config);
    } else {
      var rest, c := commands[..|commands| - 1], commands[|commands| - 1];
      MirrorIsLastCommanded(salvos, st, rest);
      var before := Drained(salvos, st, rest);
      OneIsMirrored(salvos, before, c);
      OverwrittenInTurn(st.config, AllCommanded(salvos, st, rest), before.config, Commanded(salvos, before.armed, c),
                        Handled(salvos, before, c).config);
    }
  }

  /** The commands of a run of ticks, end to end. */
  function Flat(run: seq<seq<Command>>): seq<Command> {
    if run == [] then [] else run[0] + Flat(run[1..])
  }

  /** What the backlog holds has no part in what is commanded. */
  predicate SameIntent(a: State, b: State) {
    a.config == b.config && a.armed == b.armed
  }

  lemma HandledAlike(salvos: seq<Salvo>, a: State, b: State, c: Command)
    requires SameIntent(a, b)
    ensures SameIntent(Handled(salvos, a, c), Handled(salvos, b, c))
  {
    if c.TakeSalvo? {
      var target := if c.named.Some? then c.named else a.armed;
      if target.Some? && FindSalvo(salvos, target.value).Some? {
        var recalls := FindSalvo(salvos, target.value).value.sources;
        RecalledAlike(a, b, recalls, |recalls|);
      }
    }
  }

  lemma {:induction false} RecalledAlike(a: State, b: State, recalls: seq<Recall>, n: nat)
    requires SameIntent(a, b) && n <= |recalls|
    ensures SameIntent(Recalled(a, recalls, n), Recalled(b, recalls, n))
  {
    if n == 0 {
    } else {
      RecalledAlike(a, b, recalls, n - 1);
    }
  }

  lemma {:induction false} DrainedAlike(salvos: seq<Salvo>, a: State, b: State, commands: seq<Command>)
    requires SameIntent(a, b)
    ensures SameIntent(Drained(salvos, a, commands), Drained(salvos, b, commands))
    ensures AllCommanded(salvos, a, commands) == AllCommanded(salvos, b, commands)
  {
    hide Handled, Commanded;
    if commands == [] {
    } else {
      var rest, c := commands[..|commands| - 1], commands[|commands| - 1];
      DrainedAlike(salvos, a, b, rest);
      HandledAlike(salvos, Drained(salvos, a, rest), Drained(salvos, b, rest), c);
    }
  }

  lemma {:induction false} DrainedInTurn(salvos: seq<Salvo>, st: State, first: seq<Command>, later: seq<Command>)
    ensures Drained(salvos, st, first + later) == Drained(salvos, Drained(salvos, st, first), later)
    ensures AllCommanded(salvos, st, first + later)
            == AllCommanded(salvos, st, first) + AllCommanded(salvos, Drained(salvos, st, first), later)
    decreases |later|
  {
    hide Handled, Commanded;
    if later == [] {
      assert first + later == first;
    } else {
      var rest := later[..|later| - 1];
      DrainedInTurn(salvos, st, first, rest);
      assert (first + later)[..|first + later| - 1] == first + rest;
    }
  }

  lemma {:induction false} TicksKeepIntent(w: World, salvos: seq<Salvo>, st: State, b: Bindings, run: seq<seq<Command>>)
    ensures SameIntent(RunTicks(w, salvos, st, b, run).0, Drained(salvos, st, Flat(run)))
    decreases |run|
  {
    if run == [] {
    } else {
      hide Drained, Settled;
      var (next, shown) := Ticked(w, salvos, st, b, run[0]);
      TicksKeepIntent(w, salvos, next, shown, run[1..]);
      DrainedAlike(salvos, next, Drained(salvos, st, run[0]), Flat(run[1..]));
      DrainedInTurn(salvos, st, run[0], Flat(run[1..]));
    }
  }

  /** Eight ticks after the last command of any run that sheds nothing live, the compositor shows on
      every cell the input last commanded for it, by route or by salvo, and what the config first
      said where none was. */
  lemma CommandedIsShown(w: World, salvos: seq<Salvo>, st: State, b: Bindings, run: seq<seq<Command>>)
    requires Sound(w, st, b) && Converging(w, st, b) && SafeRun(w, salvos, st, b, run)
    ensures var (last, shown) := RunTicks(w, salvos, st, b, run);
            Overwritten(st.config, AllCommanded(salvos, st, Flat(run)), RunTicks(w, salvos, last, shown, Idle(8)).1)
  {
    EightTicksConverge(w, salvos, st, b, run);
    TicksKeepIntent(w, salvos, st, b, run);
    MirrorIsLastCommanded(salvos, st, Flat(run));
    hide Overwritten, RunTicks, Sound, Converging, SafeRun, Drained, AllCommanded;
  }
}
