/**
 Threads that use the registry at once.  An operation changes or reads the
 registry under its lock, and then, outside it, brings the store up to date, one
 lock of the store at a time.
 */
module CallRegistryRuns {
  import opened Common
  import opened Events
  import opened Strings
  import opened CallRegistry

  // ------------------------------------------------------- effects on the store

  datatype Effect = Upsert(id: string, details: Data) | End(id: string)

  function Performed(states: States, e: Effect): States {
    match e
    case Upsert(id, details) => Upserted(states, id, details)
    case End(id) => Ended(states, id)
  }

  function AllPerformed(states: States, effects: seq<Effect>): States
    decreases |effects|
  {
    if effects == [] then states else AllPerformed(Performed(states, effects[0]), effects[1..])
  }

  ghost predicate AllTrimmed(effects: seq<Effect>) {
    forall i :: 0 <= i < |effects| ==> Trimmed(effects[i].id)
  }

  predicate Concerns(effects: seq<Effect>, i: int, id: string) {
    0 <= i < |effects| && effects[i].id == id
  }

  lemma PerformedActive(states: States, e: Effect, id: string)
    requires Trimmed(e.id)
    ensures Active(Performed(states, e), id) <==> if id == e.id then e.Upsert? else Active(states, id)
  {
    StripTrims(e.id);
  }

  lemma {:induction false} OthersStayActive(states: States, effects: seq<Effect>, id: string)
    requires AllTrimmed(effects) && forall i :: !Concerns(effects, i, id)
    ensures Active(AllPerformed(states, effects), id) <==> Active(states, id)
    decreases |effects|
  {
    if effects != [] {
      PerformedActive(states, effects[0], id);
      assert !Concerns(effects, 0, id);
      assert forall i :: Concerns(effects[1..], i, id) ==> Concerns(effects, i + 1, id);
      OthersStayActive(Performed(states, effects[0]), effects[1..], id);
    }
  }

  ghost predicate OneEach(effects: seq<Effect>) {
    forall i, j :: 0 <= i < j < |effects| ==> effects[i].id != effects[j].id
  }

  lemma {:induction false} OneDecides(states: States, effects: seq<Effect>, i: nat, id: string)
    requires AllTrimmed(effects) && OneEach(effects) && Concerns(effects, i, id)
    ensures Active(AllPerformed(states, effects), id) <==> effects[i].Upsert?
    decreases |effects|
  {
    var rest := effects[1..];
    assert forall k :: Concerns(rest, k, id) ==> Concerns(effects, k + 1, id);
    if i == 0 {
      PerformedActive(states, effects[0], id);
      OthersStayActive(Performed(states, effects[0]), rest, id);
    } else {
      OneDecides(Performed(states, effects[0]), rest, i - 1, id);
    }
  }

  // ---------------------------------------------------------------- operations

  datatype Operation =
    | Add(id: string, details: Data)
    | Replace(oldId: string, newId: string, details: Data)
    | Remove(id: string)
    | Stop(id: string)
    | Snapshot(id: string, details: Data)
    | Snapshots(taken: seq<Effect>)

  /** Ids are trimmed; `snapshots` visits no session twice. */
  ghost predicate Allowed(keys: set<string>, op: Operation) {
    match op
    case Add(id, _) => Trimmed(id)
    case Replace(oldId, newId, _) => Trimmed(oldId) && Trimmed(newId)
    case Remove(id) => Trimmed(id)
    case Stop(id) => Trimmed(id)
    case Snapshot(id, _) => Trimmed(id)
    case Snapshots(taken) =>
      && OneEach(taken) && AllTrimmed(taken)
      && forall i :: 0 <= i < |taken| ==> taken[i].Upsert? && taken[i].id in keys
  }

  /** The registry after the operation's locked section. */
  function Registered(keys: set<string>, op: Operation): set<string> {
    match op
    case Add(id, _) => keys + {id}
    case Replace(oldId, newId, _) => keys - {oldId} + {newId}
    case Remove(id) => keys - {id}
    case Stop(id) => keys - {id}
    case _ => keys
  }

  /** What the operation then does to the store; unknown calls are neither stopped nor stored. */
  function Effects(keys: set<string>, op: Operation): seq<Effect> {
    match op
    case Add(id, details) => [Upsert(id, details)]
    case Replace(oldId, newId, details) =>
      if oldId == newId then [Upsert(newId, details)] else [End(oldId), Upsert(newId, details)]
    case Remove(id) => [End(id)]
    case Stop(id) => if id in keys then [End(id)] else []
    case Snapshot(id, details) => if id in keys then [Upsert(id, details)] else []
    case Snapshots(taken) => taken
  }

  /** Every effect restates what has become of its id, and every id changed has an effect. */
  lemma EffectsFollowKeys(keys: set<string>, op: Operation)
    requires Allowed(keys, op)
    ensures AllTrimmed(Effects(keys, op)) && OneEach(Effects(keys, op))
    ensures forall i :: 0 <= i < |Effects(keys, op)| ==>
              (Effects(keys, op)[i].Upsert? <==> Effects(keys, op)[i].id in Registered(keys, op))
    ensures forall id :: (forall i :: !Concerns(Effects(keys, op), i, id)) ==>
              (id in keys <==> id in Registered(keys, op))
  {
    var effects := Effects(keys, op);
    if op.Replace? && op.oldId != op.newId {
      assert Concerns(effects, 0, op.oldId) && Concerns(effects, 1, op.newId);
    } else if effects != [] {
      assert Concerns(effects, 0, effects[0].id);
    }
  }

  /** An operation whose effects meet no others leaves the store as the registry's own methods do. */
  lemma AloneAsInTurn(keys: set<string>, states: States, op: Operation)
    requires Allowed(keys, op)
    ensures op.Add? ==> AllPerformed(states, Effects(keys, op)) == Upserted(states, op.id, op.details)
    ensures op.Replace? ==>
              AllPerformed(states, Effects(keys, op)) == Replaced(states, op.oldId, op.newId, op.details)
    ensures op.Remove? || (op.Stop? && op.id in keys) ==>
              AllPerformed(states, Effects(keys, op)) == Ended(states, op.id)
    ensures op.Snapshot? && op.id in keys ==>
              AllPerformed(states, Effects(keys, op)) == Upserted(states, op.id, op.details)
  {
    var effects := Effects(keys, op);
    if op.Replace? && op.oldId != op.newId {
      StripTrims(op.oldId);
      TwoPerformed(states, End(op.oldId), Upsert(op.newId, op.details));
    }
  }

  lemma TwoPerformed(states: States, first: Effect, second: Effect)
    ensures AllPerformed(states, [first, second]) == Performed(Performed(states, first), second)
  {
    assert [first, second][1..] == [second] && [second][1..] == [];
    assert AllPerformed(Performed(states, first), [second]) == Performed(Performed(states, first), second);
  }

  // ---------------------------------------------------------------------- runs

  /** What threads have still to do to the store, in their order, by thread. */
  type Pending = map<nat, seq<Effect>>

  datatype Server = Server(keys: set<string>, states: States, pending: Pending)

  datatype Move = Begin(t: nat, op: Operation) | Perform(t: nat)

  function Begun(g: Server, t: nat, op: Operation): Server {
    Server(Registered(g.keys, op), g.states, g.pending[t := Effects(g.keys, op)])
  }

  function Continued(g: Server, t: nat): Server
    requires t in g.pending && g.pending[t] != []
  {
    g.(states := Performed(g.states, g.pending[t][0]), pending := g.pending[t := g.pending[t][1..]])
  }

  ghost predicate Possible(g: Server, m: Move) {
    match m
    case Begin(t, op) => (t in g.pending ==> g.pending[t] == []) && Allowed(g.keys, op)
    case Perform(t) => t in g.pending && g.pending[t] != []
  }

  ghost function Next(g: Server, m: Move): Server
    requires Possible(g, m)
  {
    match m
    case Begin(t, op) => Begun(g, t, op)
    case Perform(t) => Continued(g, t)
  }

  /** Each thread's effects are on trimmed and different ids. */
  ghost predicate Sound(g: Server) {
    forall t :: t in g.pending ==> AllTrimmed(g.pending[t]) && OneEach(g.pending[t])
  }

  lemma StepSound(g: Server, m: Move)
    requires Sound(g) && Possible(g, m)
    ensures Sound(Next(g, m))
  {
    if m.Begin? {
      EffectsFollowKeys(g.keys, m.op);
    }
  }

  predicate PendingOn(g: Server, t: nat, i: int, id: string) {
    t in g.pending && Concerns(g.pending[t], i, id)
  }

  /** Whatever is pending for this id agrees with the registry, or else the store agrees already. */
  ghost predicate Due(g: Server, id: string) {
    && (forall t, i :: PendingOn(g, t, i, id) ==> (g.pending[t][i].Upsert? <==> id in g.keys))
    && ((forall t, i :: !PendingOn(g, t, i, id)) ==> (Active(g.states, id) <==> id in g.keys))
  }

  ghost predicate AllDue(g: Server) {
    forall id :: Due(g, id)
  }

  /** No effect that is pending will undo what the operation registers, or be undone by it. */
  ghost predicate Unopposed(g: Server, op: Operation) {
    forall t, i, j :: t in g.pending && 0 <= i < |g.pending[t]| && 0 <= j < |Effects(g.keys, op)| ==>
      g.pending[t][i].id == Effects(g.keys, op)[j].id ==>
      (g.pending[t][i].Upsert? <==> Effects(g.keys, op)[j].Upsert?)
  }

  lemma PerformKeepsDue(g: Server, t: nat, id: string)
    requires Sound(g) && t in g.pending && g.pending[t] != [] && Due(g, id)
    ensures Due(Continued(g, t), id)
  {
    var h, e := Continued(g, t), g.pending[t][0];
    PerformedActive(g.states, e, id);
    forall u, i | PendingOn(h, u, i, id) ensures h.pending[u][i].Upsert? <==> id in h.keys {
      assert PendingOn(g, u, if u == t then i + 1 else i, id);
    }
    if e.id == id {
      assert PendingOn(g, t, 0, id);
    } else if u, i :| PendingOn(g, u, i, id) {
      assert PendingOn(h, u, if u == t then i - 1 else i, id);
    }
  }

  /** An operation that begins keeps every id due if and only if it is unopposed. */
  lemma BeginKeepsDueExactly(g: Server, t: nat, op: Operation)
    requires Sound(g) && AllDue(g) && Possible(g, Begin(t, op))
    ensures AllDue(Begun(g, t, op)) <==> Unopposed(g, op)
  {
    EffectsFollowKeys(g.keys, op);
    if Unopposed(g, op) {
      forall id ensures Due(Begun(g, t, op), id) {
        BeginKeepsDue(g, t, op, id);
      }
    }
    if AllDue(Begun(g, t, op)) {
      forall u, i, j | u in g.pending && 0 <= i < |g.pending[u]| && 0 <= j < |Effects(g.keys, op)| &&
                       g.pending[u][i].id == Effects(g.keys, op)[j].id
        ensures g.pending[u][i].Upsert? <==> Effects(g.keys, op)[j].Upsert?
      {
        assert Due(Begun(g, t, op), g.pending[u][i].id);
        assert PendingOn(Begun(g, t, op), u, i, g.pending[u][i].id);
      }
    }
  }

  lemma BeginKeepsDue(g: Server, t: nat, op: Operation, id: string)
    requires Sound(g) && Due(g, id) && Possible(g, Begin(t, op)) && Unopposed(g, op)
    ensures Due(Begun(g, t, op), id)
  {
    var h, effects := Begun(g, t, op), Effects(g.keys, op);
    EffectsFollowKeys(g.keys, op);
    if j :| Concerns(effects, j, id) {
      assert PendingOn(h, t, j, id);
    } else {
      forall u, i | PendingOn(h, u, i, id) ensures PendingOn(g, u, i, id) && h.pending[u][i] == g.pending[u][i] {
      }
      forall u, i | PendingOn(g, u, i, id) ensures PendingOn(h, u, i, id) {
      }
    }
  }

  function Initial(): Server {
    Server({}, map[], map[])
  }

  ghost function After(g: Server, moves: seq<Move>): Server
    requires Run(g, moves)
    decreases |moves|, 1
  {
    if moves == [] then g else After(Next(g, moves[0]), moves[1..])
  }

  /** Every step is possible where it is taken. */
  ghost predicate Run(g: Server, moves: seq<Move>)
    decreases |moves|, 0
  {
    moves == [] || (Possible(g, moves[0]) && Run(Next(g, moves[0]), moves[1..]))
  }

  ghost predicate Idle(g: Server) {
    forall t :: t in g.pending ==> g.pending[t] == []
  }

  /** Every operation of the run meets no contrary effect when it begins. */
  ghost predicate RunUnopposed(g: Server, moves: seq<Move>)
    requires Run(g, moves)
    decreases |moves|
  {
    moves == [] ||
    ((moves[0].Begin? ==> Unopposed(g, moves[0].op)) && RunUnopposed(Next(g, moves[0]), moves[1..]))
  }

  lemma {:induction false} RunStaysDue(g: Server, moves: seq<Move>)
    requires Sound(g) && AllDue(g) && Run(g, moves) && RunUnopposed(g, moves)
    ensures Sound(After(g, moves)) && AllDue(After(g, moves))
    decreases |moves|
  {
    if moves != [] {
      var h := Next(g, moves[0]);
      StepSound(g, moves[0]);
      if moves[0].Begin? {
        BeginKeepsDueExactly(g, moves[0].t, moves[0].op);
      } else {
        forall id ensures Due(h, id) {
          PerformKeepsDue(g, moves[0].t, id);
        }
      }
      RunStaysDue(h, moves[1..]);
    }
  }

  ghost predicate Agrees(g: Server) {
    Same(g.keys, g.states)
  }

  lemma IdleAgreesExactly(g: Server)
    requires Idle(g)
    ensures AllDue(g) <==> Agrees(g)
  {
    assert forall t, i, id :: !PendingOn(g, t, i, id);
    if AllDue(g) {
      forall id ensures Active(g.states, id) <==> id in g.keys {
        assert Due(g, id);
      }
    }
  }

  /**
   In every run whose operations meet no contrary effect when they begin, the
   active calls are the keys whenever nothing is left to do.
   */
  lemma UnopposedRunsAgree(moves: seq<Move>)
    requires Run(Initial(), moves) && RunUnopposed(Initial(), moves) && Idle(After(Initial(), moves))
    ensures Agrees(After(Initial(), moves))
  {
    RunStaysDue(Initial(), moves);
    IdleAgreesExactly(After(Initial(), moves));
  }

  // ----------------------------------------------------- the threads' remaining steps

  /** A run that only performs what is pending. */
  ghost predicate Finishes(g: Server, moves: seq<Move>) {
    Run(g, moves) && (forall i :: 0 <= i < |moves| ==> moves[i].Perform?) && Idle(After(g, moves))
  }

  lemma {:induction false} RunsCompose(g: Server, a: seq<Move>, b: seq<Move>)
    requires Run(g, a) && Run(After(g, a), b)
    ensures Run(g, a + b) && After(g, a + b) == After(After(g, a), b)
    decreases |a|
  {
    if a == [] {
      assert a + b == b;
    } else {
      assert (a + b)[0] == a[0] && (a + b)[1..] == a[1..] + b;
      RunsCompose(Next(g, a[0]), a[1..], b);
    }
  }

  function Drained(g: Server, t: nat): Server
    requires t in g.pending
  {
    g.(states := AllPerformed(g.states, g.pending[t]), pending := g.pending[t := []])
  }

  lemma {:induction false} DrainOne(g: Server, t: nat) returns (moves: seq<Move>)
    requires t in g.pending
    ensures Run(g, moves) && (forall i :: 0 <= i < |moves| ==> moves[i].Perform?)
    ensures After(g, moves) == Drained(g, t)
    decreases |g.pending[t]|
  {
    if g.pending[t] == [] {
      moves := [];
      assert g.pending[t := []] == g.pending;
    } else {
      var h := Continued(g, t);
      var rest := DrainOne(h, t);
      assert h.pending[t := []] == g.pending[t := []];
      moves := [Perform(t)] + rest;
      assert moves[1..] == rest;
    }
  }

  ghost predicate Untouched(g: Server, threads: set<nat>, id: string) {
    forall t, i :: t in threads ==> !PendingOn(g, t, i, id)
  }

  /** The threads are done, the others where they were, and an id they leave alone is as it was. */
  ghost predicate DoneWith(g: Server, threads: set<nat>, h: Server) {
    && h.keys == g.keys && h.pending.Keys == g.pending.Keys
    && (forall t :: t in g.pending ==> h.pending[t] == if t in threads then [] else g.pending[t])
    && (forall id :: Untouched(g, threads, id) ==> (Active(h.states, id) <==> Active(g.states, id)))
  }

  lemma DrainedIsDone(g: Server, t: nat)
    requires Sound(g) && t in g.pending
    ensures Sound(Drained(g, t)) && DoneWith(g, {t}, Drained(g, t))
  {
    forall id | Untouched(g, {t}, id) ensures Active(Drained(g, t).states, id) <==> Active(g.states, id) {
      assert forall i :: Concerns(g.pending[t], i, id) ==> PendingOn(g, t, i, id);
      OthersStayActive(g.states, g.pending[t], id);
    }
  }

  lemma DoneComposes(g: Server, t: nat, h: Server, threads: set<nat>, k: Server)
    requires t in threads && threads <= g.pending.Keys && DoneWith(g, {t}, h) && DoneWith(h, threads - {t}, k)
    ensures DoneWith(g, threads, k)
  {
    forall id | Untouched(g, threads, id) ensures Active(k.states, id) <==> Active(g.states, id) {
      assert forall u, i :: PendingOn(h, u, i, id) ==> PendingOn(g, u, i, id);
      assert Untouched(g, {t}, id) && Untouched(h, threads - {t}, id);
    }
  }

  /** Some threads can be finished first. */
  lemma {:induction false} DrainThreads(g: Server, threads: set<nat>) returns (moves: seq<Move>)
    requires Sound(g) && threads <= g.pending.Keys
    ensures Run(g, moves) && (forall i :: 0 <= i < |moves| ==> moves[i].Perform?)
    ensures DoneWith(g, threads, After(g, moves))
    decreases threads
  {
    moves := [];
    if t :| t in threads {
      var first := DrainOne(g, t);
      DrainedIsDone(g, t);
      var rest := DrainThreads(Drained(g, t), threads - {t});
      RunsCompose(g, first, rest);
      DoneComposes(g, t, Drained(g, t), threads, After(g, first + rest));
      moves := first + rest;
    }
  }

  /** Any pending effect can be made the last on its id. */
  lemma AnyCanBeLast(g: Server, t: nat, i: nat, id: string) returns (moves: seq<Move>)
    requires Sound(g) && PendingOn(g, t, i, id)
    ensures Finishes(g, moves) && After(g, moves).keys == g.keys
    ensures Active(After(g, moves).states, id) <==> g.pending[t][i].Upsert?
  {
    moves := DrainThreads(g, g.pending.Keys - {t});
    var h := After(g, moves);
    var last := DrainOne(h, t);
    OneDecides(h.states, h.pending[t], i, id);
    RunsCompose(g, moves, last);
    moves := moves + last;
  }

  lemma {:induction false} FinishStaysDue(g: Server, moves: seq<Move>)
    requires Sound(g) && AllDue(g) && Finishes(g, moves)
    ensures Agrees(After(g, moves))
    decreases |moves|
  {
    if moves == [] {
      IdleAgreesExactly(g);
    } else {
      StepSound(g, moves[0]);
      forall id ensures Due(Continued(g, moves[0].t), id) {
        PerformKeepsDue(g, moves[0].t, id);
      }
      FinishStaysDue(Continued(g, moves[0].t), moves[1..]);
    }
  }

  lemma OverdueDisagrees(g: Server, id: string) returns (moves: seq<Move>)
    requires Sound(g) && !Due(g, id)
    ensures Finishes(g, moves) && !Agrees(After(g, moves))
  {
    if t, i :| PendingOn(g, t, i, id) && (g.pending[t][i].Upsert? <==> id !in g.keys) {
      moves := AnyCanBeLast(g, t, i, id);
    } else {
      moves := DrainThreads(g, g.pending.Keys);
      assert Untouched(g, g.pending.Keys, id);
    }
  }

  /** However the threads finish, the active calls are the keys, if and only if every id is due. */
  lemma FinishAgreesExactly(g: Server)
    requires Sound(g)
    ensures (forall moves :: Finishes(g, moves) ==> Agrees(After(g, moves))) <==> AllDue(g)
  {
    if AllDue(g) {
      forall moves | Finishes(g, moves) ensures Agrees(After(g, moves)) {
        FinishStaysDue(g, moves);
      }
    } else {
      var id :| !Due(g, id);
      var moves := OverdueDisagrees(g, id);
    }
  }

  /**
   After any run of operations that met no contrary effect, one more operation
   leaves the active calls the keys, however the threads then finish, if and only
   if it meets none either.
   */
  lemma OverlapAgreesExactly(moves: seq<Move>, t: nat, op: Operation)
    requires Run(Initial(), moves) && RunUnopposed(Initial(), moves)
    requires Possible(After(Initial(), moves), Begin(t, op))
    ensures var g := Begun(After(Initial(), moves), t, op);
            (forall rest :: Finishes(g, rest) ==> Agrees(After(g, rest))) <==>
            Unopposed(After(Initial(), moves), op)
  {
    RunStaysDue(Initial(), moves);
    var g := After(Initial(), moves);
    BeginKeepsDueExactly(g, t, op);
    StepSound(g, Begin(t, op));
    FinishAgreesExactly(Begun(g, t, op));
  }

  lemma RunOfThree(g: Server, a: Move, b: Move, c: Move)
    requires Possible(g, a) && Possible(Next(g, a), b) && Possible(Next(Next(g, a), b), c)
    ensures Run(g, [a, b, c]) && After(g, [a, b, c]) == Next(Next(Next(g, a), b), c)
  {
    assert [a, b, c][1..] == [b, c] && [b, c][1..] == [c] && [c][1..] == [];
    assert Run(Next(Next(g, a), b), [c]) && After(Next(Next(g, a), b), [c]) == Next(Next(Next(g, a), b), c);
    assert Run(Next(g, a), [b, c]) && After(Next(g, a), [b, c]) == After(Next(Next(g, a), b), [c]);
  }

  /** A call is stopped while a snapshot that has looked it up is on its way to the store. */
  function StopOvertakes(id: string, details: Data): seq<Move> {
    [Begin(0, Add(id, details)), Perform(0), Begin(1, Snapshot(id, details))] +
    [Begin(2, Stop(id)), Perform(2), Perform(1)]
  }

  /** The ended call is active from then on, with nothing left to do. */
  lemma StoppedCallStaysActive(id: string, details: Data)
    requires Trimmed(id)
    ensures Run(Initial(), StopOvertakes(id, details)) && Idle(After(Initial(), StopOvertakes(id, details)))
    ensures var g := After(Initial(), StopOvertakes(id, details));
            id !in g.keys && Active(g.states, id)
  {
    var g := Begun(Continued(Begun(Initial(), 0, Add(id, details)), 0), 1, Snapshot(id, details));
    RunOfThree(Initial(), Begin(0, Add(id, details)), Perform(0), Begin(1, Snapshot(id, details)));
    RunOfThree(g, Begin(2, Stop(id)), Perform(2), Perform(1));
    RunsCompose(Initial(), [Begin(0, Add(id, details)), Perform(0), Begin(1, Snapshot(id, details))],
                [Begin(2, Stop(id)), Perform(2), Perform(1)]);
    PerformedActive(Continued(Begun(g, 2, Stop(id)), 2).states, Upsert(id, details), id);
  }
}
