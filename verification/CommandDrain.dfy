/** The per-tick command drain: operator re-points are mirrored into the working config at
    once, queued on a bounded backlog, and applied to the compositor a capped few a tick. */
module CommandDrain {
  import opened Audio

  const MAX_REPOINTS_PER_TICK: nat := 32
  const MAX_REPOINT_BACKLOG: nat := 256

  type CellId = string
  type SourceId = string
  type SalvoId = string

  /** Which stream of a source; the selector is kept as the key it hashes to. */
  datatype StreamRef = StreamRef(inputId: SourceId, selector: string)

  datatype Intent = Video(cell: CellId, source: StreamRef)

  /** `SwapSource` is the best-stream `RouteVideo` and needs no case of its own. */
  datatype Command = RouteVideo(cell: CellId, source: StreamRef)
                   | ArmSalvo(salvo: SalvoId)
                   | TakeSalvo(named: Option<SalvoId>)
                   | CancelSalvo(named: Option<SalvoId>)

  datatype Recall = Recall(cell: CellId, inputId: SourceId)
  datatype Salvo = Salvo(id: SalvoId, sources: seq<Recall>)

  /** What each known cell shows. */
  type Bindings = map<CellId, Option<SourceId>>

  function SwapSource(cell: CellId, source: SourceId): Command {
    RouteVideo(cell, Best(source))
  }

  function Best(source: SourceId): StreamRef {
    StreamRef(source, "best")
  }

  // ---- the drain as a value -----------------------------------------------------------------

  /** The drain's own state; `config` is the working-config mirror, `keys` the resolved
      store keys. */
  datatype State = State(pending: seq<Intent>, config: Bindings, keys: map<StreamRef, SourceId>, armed: Option<SalvoId>)

  function Mirrored(config: Bindings, cell: CellId, source: SourceId): Bindings {
    if cell in config then config[cell := Some(source)] else config
  }

  /** What a full backlog keeps when one more intent is queued. */
  function Room(st: State): seq<Intent> {
    if |st.pending| >= MAX_REPOINT_BACKLOG then st.pending[1..] else st.pending
  }

  function Enqueued(st: State, cell: CellId, source: StreamRef): State {
    st.(keys := st.keys[source := source.inputId],
        config := Mirrored(st.config, cell, source.inputId),
        pending := Room(st) + [Video(cell, source)])
  }

  /** Routes to cells the config does not have are ignored. */
  function Routed(st: State, cell: CellId, source: StreamRef): State {
    if cell in st.config then Enqueued(st, cell, source) else st
  }

  function Recalled(st: State, recalls: seq<Recall>, n: nat): State
    requires n <= |recalls|
  {
    if n == 0 then st else
      Routed(Recalled(st, recalls, n - 1), recalls[n - 1].cell, Best(recalls[n - 1].inputId))
  }

  function FindSalvo(salvos: seq<Salvo>, id: SalvoId): (r: Option<Salvo>)
    ensures r.Some? ==> r.value in salvos && r.value.id == id
    ensures r.None? ==> forall i | 0 <= i < |salvos| :: salvos[i].id != id
  {
    if salvos == [] then None
    else if salvos[0].id == id then Some(salvos[0])
    else FindSalvo(salvos[1..], id)
  }

  /** A command's effect; a salvo that is unknown, or neither named nor armed, does nothing. */
  function Handled(salvos: seq<Salvo>, st: State, c: Command): State {
    match c
    case RouteVideo(cell, source) => Routed(st, cell, source)
    case ArmSalvo(id) => if FindSalvo(salvos, id).Some? then st.(armed := Some(id)) else st
    case TakeSalvo(named) =>
      var target := if named.Some? then named else st.armed;
      if target.None? then st else
        (match FindSalvo(salvos, target.value)
         case None => st
         case Some(salvo) => Recalled(st, salvo.sources, |salvo.sources|).(armed := None))
    case CancelSalvo(_) => st.(armed := None)
  }

  function Drained(salvos: seq<Salvo>, st: State, commands: seq<Command>): State {
    if commands == [] then st
    else Handled(salvos, Drained(salvos, st, commands[..|commands| - 1]), commands[|commands| - 1])
  }

  // ---- the compositor's bindings ---------------------------------------------------------------

  /** What decides whether a route lands: the registered stores and the input inventory. */
  datatype World = World(stores: set<SourceId>, resolves: StreamRef -> bool)

  /** Whether an intent can be applied. */
  predicate Lands(w: World, keys: map<StreamRef, SourceId>, b: Bindings, i: Intent) {
    && w.resolves(i.source) && i.source in keys
    && i.cell in b && keys[i.source] in w.stores
  }

  /** One re-point: applied, or held with the binding unchanged. */
  function Rebound(w: World, keys: map<StreamRef, SourceId>, b: Bindings, i: Intent): Bindings {
    if Lands(w, keys, b, i) then b[i.cell := Some(keys[i.source])] else b
  }

  /** The bindings once a run of intents has been applied in order. */
  function Settled(w: World, keys: map<StreamRef, SourceId>, b: Bindings, intents: seq<Intent>): Bindings
    decreases |intents|
  {
    if intents == [] then b else Settled(w, keys, Rebound(w, keys, b, intents[0]), intents[1..])
  }

  /** One tick: drain the bus, then apply at most the cap. */
  function Ticked(w: World, salvos: seq<Salvo>, st: State, b: Bindings, commands: seq<Command>): (State, Bindings) {
    var next := Drained(salvos, st, commands);
    var n := Min(|next.pending|, MAX_REPOINTS_PER_TICK);
    (next.(pending := next.pending[n..]), Settled(w, next.keys, b, next.pending[..n]))
  }

  // ---- the drain in place ---------------------------------------------------------------------------

  class CompositorDrive {
    var bindings: Bindings
    var stores: set<SourceId>

    constructor (bindings: Bindings, stores: set<SourceId>)
      ensures this.bindings == bindings && this.stores == stores
    {
      this.bindings, this.stores := bindings, stores;
    }

    /** Rebinds one cell; an unknown cell or an unregistered source is refused. */
    method RebindCell(cell: CellId, source: SourceId) returns (ok: bool)
      modifies this`bindings
      ensures ok <==> cell in old(bindings) && source in stores
      ensures bindings == if ok then old(bindings)[cell := Some(source)] else old(bindings)
    {
      if cell !in bindings || source !in stores {
        return false;
      }
      bindings := bindings[cell := Some(source)];
      return true;
    }
  }

  class CommandDrain {
    const salvos: seq<Salvo>
    const resolves: StreamRef -> bool
    var pending: seq<Intent>
    var config: Bindings
    var keys: map<StreamRef, SourceId>
    var armedSalvo: Option<SalvoId>

    function View(): State
      reads this
    {
      State(pending, config, keys, armedSalvo)
    }

    constructor (salvos: seq<Salvo>, resolves: StreamRef -> bool, config: Bindings)
      ensures View() == State([], config, map[], None)
      ensures this.salvos == salvos && this.resolves == resolves
    {
      this.salvos, this.resolves, this.config := salvos, resolves, config;
      pending, keys, armedSalvo := [], map[], None;
    }

    method EnqueueVideoIntent(cell: CellId, source: StreamRef)
      modifies this
      ensures View() == Enqueued(old(View()), cell, source)
    {
      keys := keys[source := source.inputId];
      if cell in config {
        config := config[cell := Some(source.inputId)];
      }
      if |pending| >= MAX_REPOINT_BACKLOG {
        pending := pending[1..];
      }
      pending := pending + [Video(cell, source)];
    }

    method RouteVideoCommand(cell: CellId, source: StreamRef)
      modifies this
      ensures View() == Routed(old(View()), cell, source)
    {
      if cell in config {
        EnqueueVideoIntent(cell, source);
      }
    }

    method TakeSalvo(named: Option<SalvoId>)
      modifies this
      ensures View() == Handled(salvos, old(View()), Command.TakeSalvo(named))
    {
      var target := if named.Some? then named else armedSalvo;
      if target.None? {
        return;
      }
      var found := FindSalvo(salvos, target.value);
      if found.None? {
        return;
      }
      var recalls := found.value.sources;
      for n := 0 to |recalls|
        invariant View() == Recalled(old(View()), recalls, n)
      {
        if recalls[n].cell in config {
          EnqueueVideoIntent(recalls[n].cell, Best(recalls[n].inputId));
        }
      }
      armedSalvo := None;
    }

    method RouteCommand(c: Command)
      modifies this
      ensures View() == Handled(salvos, old(View()), c)
    {
      match c
      case RouteVideo(cell, source) => RouteVideoCommand(cell, source);
      case ArmSalvo(id) =>
        if FindSalvo(salvos, id).Some? {
          armedSalvo := Some(id);
        }
      case TakeSalvo(named) => TakeSalvo(named);
      case CancelSalvo(_) => armedSalvo := None;
    }

    /** One frame-boundary pass over the drained `commands`. */
    method Apply(commands: seq<Command>, drive: CompositorDrive) returns (applied: nat)
      modifies this, drive`bindings
      ensures (View(), drive.bindings)
              == Ticked(World(drive.stores, resolves), salvos, old(View()), old(drive.bindings), commands)
      ensures applied == Min(|Drained(salvos, old(View()), commands).pending|, MAX_REPOINTS_PER_TICK)
    {
      for k := 0 to |commands|
        invariant View() == Drained(salvos, old(View()), commands[..k]) && drive.bindings == old(drive.bindings)
      {
        assert commands[..k + 1][..k] == commands[..k];
        RouteCommand(commands[k]);
      }
      assert commands[..|commands|] == commands;
      ghost var next := View();
      ghost var w := World(drive.stores, resolves);
      applied := 0;
      while applied < MAX_REPOINTS_PER_TICK
        invariant applied <= Min(|next.pending|, MAX_REPOINTS_PER_TICK)
        invariant View() == next.(pending := next.pending[applied..])
        invariant drive.bindings == Settled(w, keys, old(drive.bindings), next.pending[..applied])
      {
        if pending == [] {
          break;
        }
        SettledSnoc(w, keys, old(drive.bindings), next.pending[..applied], pending[0]);
        assert next.pending[..applied + 1] == next.pending[..applied] + [pending[0]];
        var intent := pending[0];
        pending := pending[1..];
        if resolves(intent.source) && intent.source in keys {
          var _ := drive.RebindCell(intent.cell, keys[intent.source]);
        }
        applied := applied + 1;
      }
    }
  }

  lemma {:induction false} SettledSnoc(w: World, keys: map<StreamRef, SourceId>,
                                       b: Bindings, intents: seq<Intent>, last: Intent)
    ensures Settled(w, keys, b, intents + [last]) == Rebound(w, keys, Settled(w, keys, b, intents), last)
    decreases |intents|
  {
    if intents == [] {
      assert ([] + [last])[1..] == [];
    } else {
      SettledSnoc(w, keys, Rebound(w, keys, b, intents[0]), intents[1..], last);
      assert (intents + [last])[1..] == intents[1..] + [last];
    }
  }

  // ---- the mirror is what the drive settles to ---------------------------------------------------------

  /** The route's source is registered and its stream exists. */
  predicate Registered(w: World, source: StreamRef) {
    source.inputId in w.stores && w.resolves(source)
  }

  /** Everything queued can land: its cell is known, its source registered and keyed. */
  predicate Sound(w: World, st: State, b: Bindings) {
    && |st.pending| <= MAX_REPOINT_BACKLOG
    && st.config.Keys == b.Keys
    && (forall k | k in st.keys :: st.keys[k] == k.inputId)
    && (forall i | 0 <= i < |st.pending| :: Lands(w, st.keys, b, st.pending[i]))
  }

  /** The backlog, folded over what the drive shows, is the working config. */
  predicate Converging(w: World, st: State, b: Bindings) {
    Settled(w, st.keys, b, st.pending) == st.config
  }

  lemma {:induction false} SettledKeys(w: World, keys: map<StreamRef, SourceId>, b: Bindings, intents: seq<Intent>)
    ensures Settled(w, keys, b, intents).Keys == b.Keys
    decreases |intents|
  {
    if intents == [] {
    } else {
      SettledKeys(w, keys, Rebound(w, keys, b, intents[0]), intents[1..]);
    }
  }

  /** More keys change nothing for intents that already had theirs. */
  lemma {:induction false} SettledIgnoresNewKeys(w: World, keys: map<StreamRef, SourceId>, more: map<StreamRef, SourceId>,
                                                 b: Bindings, intents: seq<Intent>)
    requires forall k | k in keys :: k in more && more[k] == keys[k]
    requires forall i | 0 <= i < |intents| :: Lands(w, keys, b, intents[i])
    ensures Settled(w, more, b, intents) == Settled(w, keys, b, intents)
    decreases |intents|
  {
    if intents == [] {
    } else {
      assert Lands(w, keys, b, intents[0]);
      SettledIgnoresNewKeys(w, keys, more, Rebound(w, keys, b, intents[0]), intents[1..]);
    }
  }

  /** A queued intent leaves no trace exactly when a later one covers its cell, or the drive
      already shows its source. */
  lemma {:induction false} DroppingFirstIff(w: World, keys: map<StreamRef, SourceId>,
                                            b: Bindings, first: Intent, rest: seq<Intent>)
    requires Lands(w, keys, b, first) && forall i | 0 <= i < |rest| :: Lands(w, keys, b, rest[i])
    ensures Settled(w, keys, b, rest) == Settled(w, keys, Rebound(w, keys, b, first), rest)
            <==> Names(rest, first.cell) || b[first.cell] == Some(keys[first.source])
  {
    var b' := Rebound(w, keys, b, first);
    assert forall i | 0 <= i < |rest| :: Lands(w, keys, b', rest[i]);
    assert forall i | 0 <= i < |rest| :: Lands(w, keys, b, rest[i]) && rest[i].source in keys;
    LastNameWins(w, keys, b, rest, first.cell);
    LastNameWins(w, keys, b', rest, first.cell);
    SettledKeys(w, keys, b, rest);
    SettledKeys(w, keys, b', rest);
    var s, s' := Settled(w, keys, b, rest), Settled(w, keys, b', rest);
    forall c | c in b && c != first.cell
      ensures s[c] == s'[c]
    {
      LastNameWins(w, keys, b, rest, c);
      LastNameWins(w, keys, b', rest, c);
    }
    if Names(rest, first.cell) || b[first.cell] == Some(keys[first.source]) {
      assert s == s';
    } else {
      assert s[first.cell] != s'[first.cell];
    }
  }

  predicate Names(intents: seq<Intent>, cell: CellId) {
    exists i :: 0 <= i < |intents| && intents[i].cell == cell
  }

  /** What a cell ends up showing: the last intent naming it, or what it showed. */
  function Final(keys: map<StreamRef, SourceId>, shown: Option<SourceId>, intents: seq<Intent>, cell: CellId): Option<SourceId>
    requires forall i | 0 <= i < |intents| :: intents[i].source in keys
  {
    if intents == [] then shown
    else if intents[|intents| - 1].cell == cell then Some(keys[intents[|intents| - 1].source])
    else Final(keys, shown, intents[..|intents| - 1], cell)
  }

  lemma {:induction false} LastNameWins(w: World, keys: map<StreamRef, SourceId>,
                                        b: Bindings, intents: seq<Intent>, cell: CellId)
    requires cell in b && (forall i | 0 <= i < |intents| :: Lands(w, keys, b, intents[i]))
    requires forall i | 0 <= i < |intents| :: intents[i].source in keys
    ensures cell in Settled(w, keys, b, intents)
    ensures Settled(w, keys, b, intents)[cell] == Final(keys, b[cell], intents, cell)
    ensures Names(intents, cell) ==> forall other: Option<SourceId> ::
              Final(keys, other, intents, cell) == Final(keys, b[cell], intents, cell)
    ensures !Names(intents, cell) ==> forall other: Option<SourceId> :: Final(keys, other, intents, cell) == other
  {
    SettledKeys(w, keys, b, intents);
    if intents == [] {
    } else {
      var rest, last := intents[..|intents| - 1], intents[|intents| - 1];
      LastNameWins(w, keys, b, rest, cell);
      assert intents == rest + [last];
      SettledSnoc(w, keys, b, rest, last);
      SettledKeys(w, keys, b, rest);
      if last.cell == cell {
        assert Names(intents, cell);
      } else {
        assert Names(intents, cell) == Names(rest, cell) by {
          if Names(intents, cell) {
            var i :| 0 <= i < |intents| && intents[i].cell == cell;
            assert rest[i].cell == cell;
          }
          if Names(rest, cell) {
            var i :| 0 <= i < |rest| && rest[i].cell == cell;
            assert intents[i].cell == cell;
          }
        }
      }
    }
  }

  /** Whether queueing one more intent sheds one that was the last for its cell. */
  predicate ShedsTheLast(st: State, b: Bindings, cell: CellId)
    requires forall i | 0 <= i < |st.pending| :: st.pending[i].cell in b
  {
    && |st.pending| >= MAX_REPOINT_BACKLOG
    && !Names(st.pending[1..], st.pending[0].cell) && st.pending[0].cell != cell
    && b[st.pending[0].cell] != Some(st.pending[0].source.inputId)
  }

  /** Queueing a route keeps the backlog converging on the mirror exactly when what it sheds,
      if anything, was superseded or already shown. */
  lemma EnqueueConvergesIff(w: World, st: State, b: Bindings, cell: CellId, source: StreamRef)
    requires Sound(w, st, b) && Converging(w, st, b) && cell in b && Registered(w, source)
    ensures Sound(w, Enqueued(st, cell, source), b)
    ensures Converging(w, Enqueued(st, cell, source), b) <==> !ShedsTheLast(st, b, cell)
  {
    var next, intent := Enqueued(st, cell, source), Video(cell, source);
    SettledIgnoresNewKeys(w, st.keys, next.keys, b, st.pending);
    SettledSnoc(w, next.keys, b, st.pending, intent);
    SettledKeys(w, next.keys, b, st.pending);
    assert Settled(w, next.keys, b, st.pending + [intent]) == next.config;
    if |st.pending| >= MAX_REPOINT_BACKLOG {
      var first, rest := st.pending[0], st.pending[1..] + [intent];
      assert st.pending + [intent] == [first] + rest;
      assert Lands(w, st.keys, b, first);
      assert forall i | 0 <= i < |rest| :: Lands(w, next.keys, b, rest[i]);
      DroppingFirstIff(w, next.keys, b, first, rest);
      NamesAppended(st.pending[1..], intent, first.cell);
    }
  }

  lemma NamesAppended(intents: seq<Intent>, last: Intent, cell: CellId)
    ensures Names(intents + [last], cell) <==> Names(intents, cell) || last.cell == cell
  {
    var all := intents + [last];
    if Names(all, cell) && last.cell != cell {
      var i :| 0 <= i < |all| && all[i].cell == cell;
      assert intents[i].cell == cell;
    }
    if Names(intents, cell) {
      var i :| 0 <= i < |intents| && intents[i].cell == cell;
      assert all[i].cell == cell;
    }
    if last.cell == cell {
      assert all[|intents|].cell == cell;
    }
  }

  /** Dropping the first intent changes what is settled at its own cell alone, and there exactly
      when nothing later covers it and the drive did not show it. */
  lemma DroppedAt(w: World, keys: map<StreamRef, SourceId>, b: Bindings, first: Intent, rest: seq<Intent>, cell: CellId)
    requires Lands(w, keys, b, first) && forall i | 0 <= i < |rest| :: Lands(w, keys, b, rest[i])
    requires cell in b
    ensures var (s, all) := (Settled(w, keys, b, rest), Settled(w, keys, b, [first] + rest));
            && cell in s && cell in all
            && (s[cell] == all[cell] <==> cell != first.cell || Names(rest, cell) || b[cell] == Some(keys[first.source]))
  {
    var b' := Rebound(w, keys, b, first);
    assert forall i | 0 <= i < |rest| :: Lands(w, keys, b', rest[i]);
    assert forall i | 0 <= i < |rest| :: Lands(w, keys, b, rest[i]) && rest[i].source in keys;
    assert ([first] + rest)[1..] == rest;
    LastNameWins(w, keys, b, rest, cell);
    LastNameWins(w, keys, b', rest, cell);
  }

  /** A route to a source with no store is held by the drive but not by the mirror.  The two stay
      together through it exactly when nothing that mattered is shed for it, and what is left in
      the backlog has the cell end up showing that source anyway. */
  lemma UnregisteredRouteIff(w: World, st: State, b: Bindings, cell: CellId, source: StreamRef)
    requires Sound(w, st, b) && Converging(w, st, b) && cell in b && !Registered(w, source)
    ensures cell in Settled(w, st.keys, b, Room(st))
    ensures Converging(w, Enqueued(st, cell, source), b)
            <==> !ShedsTheLast(st, b, cell) && Settled(w, st.keys, b, Room(st))[cell] == Some(source.inputId)
    ensures |st.pending| < MAX_REPOINT_BACKLOG ==>
              (Converging(w, Enqueued(st, cell, source), b) <==> st.config[cell] == Some(source.inputId))
  {
    var next, intent, room := Enqueued(st, cell, source), Video(cell, source), Room(st);
    SettledIgnoresNewKeys(w, st.keys, next.keys, b, room);
    SettledSnoc(w, next.keys, b, room, intent);
    SettledKeys(w, st.keys, b, room);
    var s := Settled(w, st.keys, b, room);
    assert Settled(w, next.keys, b, next.pending) == s;
    if |st.pending| >= MAX_REPOINT_BACKLOG {
      assert st.pending == [st.pending[0]] + room;
      assert Lands(w, st.keys, b, st.pending[0]);
      forall c | c in b
        ensures s[c] == st.config[c] <==> c != st.pending[0].cell || Names(room, c) || b[c] == Some(st.pending[0].source.inputId)
      {
        DroppedAt(w, st.keys, b, st.pending[0], room, c);
      }
    }
    hide Settled, Names;
    MirrorsIff(s, st.config, cell, Some(source.inputId));
  }

  lemma MirrorsIff(s: Bindings, config: Bindings, cell: CellId, shown: Option<SourceId>)
    requires s.Keys == config.Keys && cell in s
    ensures s == config[cell := shown] <==> s[cell] == shown && forall c | c in s && c != cell :: s[c] == config[c]
  {
    if s == config[cell := shown] {
      assert s[cell] == config[cell := shown][cell];
      forall c | c in s && c != cell
        ensures s[c] == config[c]
      {
        assert s[c] == config[cell := shown][c];
      }
    }
  }

  // ---- whole runs -----------------------------------------------------------------------------------------

  /** A route the run may make: a registered source, and no last-of-its-cell intent shed. */
  predicate Safe(w: World, st: State, b: Bindings, cell: CellId, source: StreamRef) {
    cell in st.config ==>
      && Registered(w, source)
      && (forall i | 0 <= i < |st.pending| :: st.pending[i].cell in b)
      && !ShedsTheLast(st, b, cell)
  }

  predicate SafeRecalls(w: World, st: State, b: Bindings, recalls: seq<Recall>, n: nat)
    requires n <= |recalls|
  {
    n == 0 || (SafeRecalls(w, st, b, recalls, n - 1)
               && Safe(w, Recalled(st, recalls, n - 1), b, recalls[n - 1].cell, Best(recalls[n - 1].inputId)))
  }

  predicate SafeCommand(w: World, salvos: seq<Salvo>, st: State, b: Bindings, c: Command) {
    match c
    case RouteVideo(cell, source) => Safe(w, st, b, cell, source)
    case TakeSalvo(named) =>
      var target := if named.Some? then named else st.armed;
      target.Some? && FindSalvo(salvos, target.value).Some? ==>
        var recalls := FindSalvo(salvos, target.value).value.sources;
        SafeRecalls(w, st, b, recalls, |recalls|)
    case _ => true
  }

  predicate SafeDrain(w: World, salvos: seq<Salvo>, st: State, b: Bindings, commands: seq<Command>) {
    commands == [] || (SafeDrain(w, salvos, st, b, commands[..|commands| - 1])
                       && SafeCommand(w, salvos, Drained(salvos, st, commands[..|commands| - 1]), b, commands[|commands| - 1]))
  }

  lemma RouteKeepsConverging(w: World, st: State, b: Bindings, cell: CellId, source: StreamRef)
    requires Sound(w, st, b) && Converging(w, st, b) && Safe(w, st, b, cell, source)
    ensures Sound(w, Routed(st, cell, source), b) && Converging(w, Routed(st, cell, source), b)
  {
    hide Settled;
    if cell in st.config {
      EnqueueConvergesIff(w, st, b, cell, source);
    }
  }

  lemma {:induction false} RecallsKeepConverging(w: World, st: State, b: Bindings, recalls: seq<Recall>, n: nat)
    requires n <= |recalls| && Sound(w, st, b) && Converging(w, st, b) && SafeRecalls(w, st, b, recalls, n)
    ensures Sound(w, Recalled(st, recalls, n), b) && Converging(w, Recalled(st, recalls, n), b)
  {
    hide Sound, Converging, Safe, Routed;
    if n == 0 {
    } else {
      RecallsKeepConverging(w, st, b, recalls, n - 1);
      RouteKeepsConverging(w, Recalled(st, recalls, n - 1), b, recalls[n - 1].cell, Best(recalls[n - 1].inputId));
    }
  }

  lemma ArmingKeepsConverging(w: World, st: State, b: Bindings, armed: Option<SalvoId>)
    requires Sound(w, st, b) && Converging(w, st, b)
    ensures Sound(w, st.(armed := armed), b) && Converging(w, st.(armed := armed), b)
  {}

  lemma CommandKeepsConverging(w: World, salvos: seq<Salvo>, st: State, b: Bindings, c: Command)
    requires Sound(w, st, b) && Converging(w, st, b) && SafeCommand(w, salvos, st, b, c)
    ensures Sound(w, Handled(salvos, st, c), b) && Converging(w, Handled(salvos, st, c), b)
  {
    hide Sound, Converging, Safe, Routed, Recalled, SafeRecalls;
    match c
    case RouteVideo(cell, source) => RouteKeepsConverging(w, st, b, cell, source);
    case ArmSalvo(id) => ArmingKeepsConverging(w, st, b, Some(id));
    case CancelSalvo(_) => ArmingKeepsConverging(w, st, b, None);
    case TakeSalvo(named) =>
      var target := if named.Some? then named else st.armed;
      if target.Some? && FindSalvo(salvos, target.value).Some? {
        var recalls := FindSalvo(salvos, target.value).value.sources;
        RecallsKeepConverging(w, st, b, recalls, |recalls|);
        ArmingKeepsConverging(w, Recalled(st, recalls, |recalls|), b, None);
      }
  }

  lemma {:induction false} DrainKeepsConverging(w: World, salvos: seq<Salvo>, st: State, b: Bindings, commands: seq<Command>)
    requires Sound(w, st, b) && Converging(w, st, b) && SafeDrain(w, salvos, st, b, commands)
    ensures Sound(w, Drained(salvos, st, commands), b) && Converging(w, Drained(salvos, st, commands), b)
  {
    hide Sound, Converging, SafeCommand, Handled;
    if commands == [] {
    } else {
      var rest := commands[..|commands| - 1];
      DrainKeepsConverging(w, salvos, st, b, rest);
      CommandKeepsConverging(w, salvos, Drained(salvos, st, rest), b, commands[|commands| - 1]);
    }
  }

  lemma {:induction false} SettledSplits(w: World, keys: map<StreamRef, SourceId>, b: Bindings, intents: seq<Intent>, n: nat)
    requires n <= |intents|
    ensures Settled(w, keys, b, intents) == Settled(w, keys, Settled(w, keys, b, intents[..n]), intents[n..])
    decreases n
  {
    if n == 0 {
      assert intents[..0] == [] && intents[0..] == intents;
    } else {
      SettledSplits(w, keys, Rebound(w, keys, b, intents[0]), intents[1..], n - 1);
      assert intents[..n][1..] == intents[1..][..n - 1] && intents[1..][n - 1..] == intents[n..];
    }
  }

  /** A tick keeps the backlog converging, and takes at most the cap off it. */
  lemma TickKeepsConverging(w: World, salvos: seq<Salvo>, st: State, b: Bindings, commands: seq<Command>)
    requires Sound(w, st, b) && Converging(w, st, b) && SafeDrain(w, salvos, st, b, commands)
    ensures var (next, shown) := Ticked(w, salvos, st, b, commands);
            && Sound(w, next, shown) && Converging(w, next, shown)
            && |next.pending| == Max(0, |Drained(salvos, st, commands).pending| - MAX_REPOINTS_PER_TICK)
  {
    DrainKeepsConverging(w, salvos, st, b, commands);
    hide Drained, SafeDrain;
    ApplyKeepsConverging(w, Drained(salvos, st, commands), b);
  }

  /** Applying the head of the backlog moves it from the fold into the drive. */
  lemma ApplyKeepsConverging(w: World, st: State, b: Bindings)
    requires Sound(w, st, b) && Converging(w, st, b)
    ensures var n := Min(|st.pending|, MAX_REPOINTS_PER_TICK);
            var next, shown := st.(pending := st.pending[n..]), Settled(w, st.keys, b, st.pending[..n]);
            Sound(w, next, shown) && Converging(w, next, shown)
  {
    hide Settled;
    var n := Min(|st.pending|, MAX_REPOINTS_PER_TICK);
    SettledSplits(w, st.keys, b, st.pending, n);
    SettledKeys(w, st.keys, b, st.pending[..n]);
    var rest := st.pending[n..];
    forall i | 0 <= i < |rest|
      ensures Lands(w, st.keys, Settled(w, st.keys, b, st.pending[..n]), rest[i])
    {
      assert Lands(w, st.keys, b, st.pending[n + i]);
    }
  }

  /** A run of ticks, each with the commands it drains. */
  function RunTicks(w: World, salvos: seq<Salvo>, st: State, b: Bindings, run: seq<seq<Command>>): (State, Bindings)
    decreases |run|
  {
    if run == [] then (st, b) else
      var (next, shown) := Ticked(w, salvos, st, b, run[0]);
      RunTicks(w, salvos, next, shown, run[1..])
  }

  predicate SafeRun(w: World, salvos: seq<Salvo>, st: State, b: Bindings, run: seq<seq<Command>>)
    decreases |run|
  {
    run == [] || (SafeDrain(w, salvos, st, b, run[0]) &&
                  var (next, shown) := Ticked(w, salvos, st, b, run[0]);
                  SafeRun(w, salvos, next, shown, run[1..]))
  }

  /** Over every run that sheds no last-of-its-cell intent, the backlog folded over the
      drive's bindings is always the working config. */
  lemma {:induction false} RunsKeepConverging(w: World, salvos: seq<Salvo>, st: State, b: Bindings, run: seq<seq<Command>>)
    requires Sound(w, st, b) && Converging(w, st, b) && SafeRun(w, salvos, st, b, run)
    ensures var (next, shown) := RunTicks(w, salvos, st, b, run);
            Sound(w, next, shown) && Converging(w, next, shown)
    decreases |run|
  {
    if run == [] {
    } else {
      TickKeepsConverging(w, salvos, st, b, run[0]);
      hide Sound, Converging, Ticked;
      var (next, shown) := Ticked(w, salvos, st, b, run[0]);
      RunsKeepConverging(w, salvos, next, shown, run[1..]);
    }
  }

  function Idle(ticks: nat): seq<seq<Command>> {
    seq(ticks, _ => [])
  }

  lemma {:induction false} IdleTicksEmptyTheBacklog(w: World, salvos: seq<Salvo>, st: State, b: Bindings, ticks: nat)
    requires Sound(w, st, b) && Converging(w, st, b)
    ensures var (next, shown) := RunTicks(w, salvos, st, b, Idle(ticks));
            && Sound(w, next, shown) && Converging(w, next, shown)
            && next.config == st.config
            && |next.pending| == Max(0, |st.pending| - ticks * MAX_REPOINTS_PER_TICK)
    decreases ticks
  {
    if ticks == 0 {
    } else {
      assert Idle(ticks)[1..] == Idle(ticks - 1);
      TickKeepsConverging(w, salvos, st, b, []);
      hide Sound, Converging;
      var (next, shown) := Ticked(w, salvos, st, b, []);
      IdleTicksEmptyTheBacklog(w, salvos, next, shown, ticks - 1);
    }
  }

  /** Eight ticks after the last command of any such run, the compositor shows exactly the
      working config. */
  lemma EightTicksConverge(w: World, salvos: seq<Salvo>, st: State, b: Bindings, run: seq<seq<Command>>)
    requires Sound(w, st, b) && Converging(w, st, b) && SafeRun(w, salvos, st, b, run)
    ensures var (last, shown) := RunTicks(w, salvos, st, b, run);
            RunTicks(w, salvos, last, shown, Idle(8)).1 == last.config
  {
    RunsKeepConverging(w, salvos, st, b, run);
    var (last, shown) := RunTicks(w, salvos, st, b, run);
    IdleTicksEmptyTheBacklog(w, salvos, last, shown, 8);
  }

  // ---- the shed that mis-routes --------------------------------------------------------------------------------

  const CROWD: nat := MAX_REPOINT_BACKLOG

  function Crowd(n: nat): seq<Command> {
    [SwapSource("a", "x")] + seq(n, _ => SwapSource("b", "y"))
  }

  function CrowdPending(n: nat): seq<Intent> {
    [Video("a", Best("x"))] + seq(n, _ => Video("b", Best("y")))
  }

  const SHOWN: Bindings := map["a" := None, "b" := None]

  lemma {:induction false} CrowdQueues(n: nat)
    requires n < MAX_REPOINT_BACKLOG
    ensures var st := Drained([], State([], SHOWN, map[], None), Crowd(n));
            && st.pending == CrowdPending(n)
            && st.config["a" := Some("x")] == st.config && st.config.Keys == SHOWN.Keys
  {
    if n == 0 {
      FirstOfTheCrowd();
    } else {
      CrowdQueues(n - 1);
      CrowdGrows(n);
      var st := Drained([], State([], SHOWN, map[], None), Crowd(n - 1));
      OneMoreInCrowd(st, n);
      assert "b" in st.config;
      hide Crowd, CrowdPending, Enqueued, Drained;
    }
  }

  lemma FirstOfTheCrowd()
    ensures Drained([], State([], SHOWN, map[], None), Crowd(0)) == Enqueued(State([], SHOWN, map[], None), "a", Best("x"))
  {
    assert Crowd(0)[..0] == [];
  }

  lemma CrowdGrows(n: nat)
    requires n > 0
    ensures Drained([], State([], SHOWN, map[], None), Crowd(n))
            == Routed(Drained([], State([], SHOWN, map[], None), Crowd(n - 1)), "b", Best("y"))
  {
    assert Crowd(n)[..n] == Crowd(n - 1) && Crowd(n)[n] == SwapSource("b", "y");
    hide Crowd, Routed;
  }

  lemma OneMoreInCrowd(st: State, n: nat)
    requires 0 < n < MAX_REPOINT_BACKLOG && st.pending == CrowdPending(n - 1)
    requires st.config["a" := Some("x")] == st.config && st.config.Keys == SHOWN.Keys
    ensures var next := Enqueued(st, "b", Best("y"));
            && next.pending == CrowdPending(n)
            && next.config["a" := Some("x")] == next.config && next.config.Keys == SHOWN.Keys
  {
    assert "a" in st.config && "b" in st.config;
  }

  /** One tick's burst of 257 routes, all on known cells and registered sources: the first is
      shed though nothing supersedes it, and its cell never shows what the config says. */
  lemma BurstShedsALiveRoute()
    ensures var w := World({"x", "y"}, _ => true);
            var st := Drained([], State([], SHOWN, map[], None), Crowd(CROWD));
            && "a" in st.config && st.config["a"] == Some("x")
            && "a" in Settled(w, st.keys, SHOWN, st.pending) && Settled(w, st.keys, SHOWN, st.pending)["a"] == None
  {
    var w := World({"x", "y"}, _ => true);
    var n := MAX_REPOINT_BACKLOG;
    CrowdQueues(n - 1);
    assert Crowd(n)[..n] == Crowd(n - 1);
    var st := Drained([], State([], SHOWN, map[], None), Crowd(n));
    assert forall i | 0 <= i < |st.pending| :: st.pending[i].cell == "b";
    OthersUntouched(w, st.keys, SHOWN, st.pending, "a");
  }

  lemma {:induction false} OthersUntouched(w: World, keys: map<StreamRef, SourceId>,
                                           b: Bindings, intents: seq<Intent>, cell: CellId)
    requires cell in b && forall i | 0 <= i < |intents| :: intents[i].cell != cell
    ensures cell in Settled(w, keys, b, intents) && Settled(w, keys, b, intents)[cell] == b[cell]
    decreases |intents|
  {
    if intents == [] {
    } else {
      OthersUntouched(w, keys, Rebound(w, keys, b, intents[0]), intents[1..], cell);
    }
  }
}
