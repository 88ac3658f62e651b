/**
 Everything that can happen to a tracker over a run of requests, expiries and
 restarts: answered ids stay answered, the bounded record summarises the whole
 history, and saving and reloading refines the tracker.
 */
module AgentTaskRuns {
  import opened Common
  import opened AgentTasks
  import opened JsonAgentTasks

  function Fresh(retention: nat): World {
    World(Empty(retention), None)
  }

  function After(w: World, steps: seq<Step>): World {
    if steps == [] then w else Apply(After(w, steps[..|steps| - 1]), steps[|steps| - 1])
  }

  function ReplyAt(w: World, steps: seq<Step>, i: nat): Reply
    requires i < |steps|
  {
    ReplyTo(After(w, steps[..i]).memory, steps[i].op, steps[i].clock.mono)
  }

  /** The constructor refuses a retention below one. */
  predicate Allowed(s: Step) {
    s.op.Restart? ==> 1 <= s.op.retention
  }

  ghost predicate Run(w: World, steps: seq<Step>) {
    && Sound(w)
    && forall s :: s in steps ==> Allowed(s)
  }

  ghost predicate Sound(w: World) {
    && WellFormed(w.memory)
    && (w.disk.Some? ==> NoDup(w.disk.value.order))
  }

  lemma StepSound(w: World, s: Step)
    requires Sound(w) && Allowed(s)
    ensures Sound(Apply(w, s))
  {
    match s.op
    case Mark(id) =>
      if id.Some? { RecordWellFormed(w.memory, id.value); }
    case Restart(retention) =>
      if w.disk.Some? {
        var p := w.disk.value;
        PrunedWellFormed(Tracker(retention, Elements(p.order), p.order, p.floor, RestoredClaims(p.claims, s.clock)));
      }
    case _ =>
  }

  /** In every reachable state the set is the FIFO's elements, within the bound and without duplicates. */
  lemma {:induction false} RunSound(w: World, steps: seq<Step>)
    requires Run(w, steps)
    ensures Sound(After(w, steps))
  {
    if steps != [] {
      RunSound(w, steps[..|steps| - 1]);
      StepSound(After(w, steps[..|steps| - 1]), steps[|steps| - 1]);
    }
  }

  // ------------------------------------------------------ answered ids stay answered

  predicate AnsweredOnDisk(p: Payload, id: int) {
    id <= p.floor || id in p.order
  }

  /** Answered in memory and on disk, and claimed in neither. */
  ghost predicate Settled(w: World, id: int) {
    && Answered(w.memory, id) && id !in w.memory.claims
    && w.disk.Some? && AnsweredOnDisk(w.disk.value, id) && id !in w.disk.value.claims
  }

  lemma MarkSettles(w: World, s: Step, id: int)
    requires Sound(w) && s.op == Mark(Some(id))
    ensures Settled(Apply(w, s), id)
  {
    RecordWellFormed(w.memory, id);
  }

  ghost predicate Closed(t: Tracker, id: int) {
    Answered(t, id) && id !in t.claims
  }

  lemma MarkKeepsClosed(t: Tracker, other: int, id: int)
    requires WellFormed(t) && Closed(t, id)
    ensures Closed(Marked(t, Some(other)), id)
  {
    RecordWellFormed(t, other);
  }

  lemma LeasingKeepsClosed(t: Tracker, op: Op, now: real, id: int)
    requires Closed(t, id) && (op.Grab? || op.Renew?)
    ensures Closed(Act(t, op, now), id)
  {
    if op.Grab? {
      GrantedOnce(t, op.ids, now);
    } else {
      RenewedByHolder(t, op.ids, op.owner, now);
    }
  }

  lemma RequestKeepsClosed(t: Tracker, op: Op, now: real, id: int)
    requires WellFormed(t) && Closed(t, id)
    ensures Closed(Act(t, op, now), id)
  {
    match op
    case Mark(other) =>
      if other.Some? { MarkKeepsClosed(t, other.value, id); }
    case Grab(_, _, _) => LeasingKeepsClosed(t, op, now, id);
    case Renew(_, _, _) => LeasingKeepsClosed(t, op, now, id);
    case _ =>
  }

  lemma LoadKeepsClosed(p: Payload, retention: nat, c: Clock, id: int)
    requires NoDup(p.order) && 1 <= retention && AnsweredOnDisk(p, id) && id !in p.claims
    ensures Closed(Load(Some(p), retention, c), id)
  {
    PrunedWellFormed(Tracker(retention, Elements(p.order), p.order, p.floor, RestoredClaims(p.claims, c)));
  }

  lemma StepKeepsSettled(w: World, s: Step, id: int)
    requires Sound(w) && Allowed(s) && Settled(w, id)
    ensures Settled(Apply(w, s), id)
  {
    if s.op.Restart? {
      LoadKeepsClosed(w.disk.value, s.op.retention, s.clock, id);
    } else {
      RequestKeepsClosed(w.memory, s.op, s.clock.mono, id);
      StepSound(w, s);
    }
  }

  lemma {:induction false} SettledSince(w: World, steps: seq<Step>, i: nat, id: int)
    requires Run(w, steps) && i < |steps| && steps[i].op == Mark(Some(id))
    ensures Settled(After(w, steps), id)
  {
    var front := steps[..|steps| - 1];
    RunSound(w, front);
    if i == |steps| - 1 {
      MarkSettles(After(w, front), steps[i], id);
    } else {
      SettledSince(w, front, i, id);
      StepKeepsSettled(After(w, front), steps[|steps| - 1], id);
    }
  }

  /**
   Once an id has been marked answered, no later reply in the run, across
   evictions, saves and restarts, treats it as open: it is never reported
   pending, never granted or renewed again, and its state reads "responded".
   */
  lemma AnsweredForever(w: World, steps: seq<Step>, i: nat, j: nat, id: int)
    requires Run(w, steps) && i < j < |steps| && steps[i].op == Mark(Some(id))
    ensures forall now :: !IsPending(After(w, steps[..j]).memory, id, now)
    ensures steps[j].op.Ask? && steps[j].op.event == id ==> ReplyAt(w, steps, j) == Answer(false)
    ensures steps[j].op.Look? && steps[j].op.event == id ==> ReplyAt(w, steps, j) == Shown(Responded)
    ensures ReplyAt(w, steps, j).GrantedIds? ==> id !in ReplyAt(w, steps, j).granted
    ensures ReplyAt(w, steps, j).RenewedIds? ==> id !in ReplyAt(w, steps, j).renewed
  {
    SettledSince(w, steps[..j], i, id);
    var t := After(w, steps[..j]).memory;
    var now := steps[j].clock.mono;
    match steps[j].op
    case Grab(ids, _, _) => GrantedOnce(t, ids, now);
    case Renew(ids, owner, _) => RenewedByHolder(t, ids, owner, now);
    case _ =>
  }

  // ------------------------------------------- the bounded record and the ids ever answered

  /** Every id put into the FIFO over a run, oldest first. */
  ghost function Recorded(w: World, steps: seq<Step>): seq<int> {
    if steps == [] then []
    else
      var front := steps[..|steps| - 1];
      Recorded(w, front) + NewlyRecorded(After(w, front).memory, steps[|steps| - 1].op)
  }

  /**
   A FIFO and floor summarise a history: the FIFO is its end, the floor is the
   maximum of the rest, and nothing was dropped while fewer than `least` were kept.
   */
  ghost predicate Summarises(order: seq<int>, floor: int, history: seq<int>, least: nat) {
    var d := |history| - |order|;
    && 0 <= d
    && order == history[d..]
    && floor == MaxOr(history[..d], 0)
    && (d > 0 ==> least <= |order|)
  }

  ghost predicate WorldSummarises(w: World, history: seq<int>, least: nat) {
    && Summarises(w.memory.order, w.memory.floor, history, least)
    && (match w.disk
        case None => history == []
        case Some(p) => Summarises(p.order, p.floor, history, least))
  }

  lemma PruneSummary(t: Tracker, history: seq<int>, least: nat)
    requires Summarises(t.order, t.floor, history, least) && least <= t.retention
    ensures Summarises(Pruned(t).order, Pruned(t).floor, history, least)
  {
    var d := |history| - |t.order|;
    var k := Overflow(|t.order|, t.retention);
    MaxOrSplit(history[..d], t.order[..k], 0);
    assert history[..d] + t.order[..k] == history[..d + k];
  }

  lemma RecordSummary(t: Tracker, id: int, history: seq<int>, least: nat)
    requires WellFormed(t) && least <= t.retention && id !in t.responded
    requires Summarises(t.order, t.floor, history, least)
    ensures Summarises(Record(t, id).order, Record(t, id).floor, history + [id], least)
  {
    var d := |history| - |t.order|;
    var u := t.(responded := t.responded + {id}, order := t.order + [id]);
    assert (history + [id])[d..] == u.order && (history + [id])[..d] == history[..d];
    PruneSummary(u, history + [id], least);
  }

  /** What one step adds to the FIFO's history. */
  ghost function NewlyRecorded(t: Tracker, op: Op): seq<int> {
    if op.Mark? && op.id.Some? && op.id.value !in t.responded then [op.id.value] else []
  }

  lemma StepSummarises(w: World, s: Step, history: seq<int>, least: nat)
    requires Sound(w) && WorldSummarises(w, history, least) && least <= w.memory.retention
    requires s.op.Restart? ==> least <= s.op.retention
    ensures WorldSummarises(Apply(w, s), history + NewlyRecorded(w.memory, s.op), least)
    ensures least <= Apply(w, s).memory.retention
  {
    if NewlyRecorded(w.memory, s.op) == [] {
      assert history + NewlyRecorded(w.memory, s.op) == history;
      if s.op.Restart? && w.disk.Some? {
        var p := w.disk.value;
        PruneSummary(
          Tracker(s.op.retention, Elements(p.order), p.order, p.floor, RestoredClaims(p.claims, s.clock)),
          history, least);
      } else if !s.op.Restart? {
        OtherwiseSameRecord(w, s);
      }
    } else {
      RecordSummary(w.memory, s.op.id.value, history, least);
    }
  }

  lemma OtherwiseSameRecord(w: World, s: Step)
    requires !s.op.Restart? && NewlyRecorded(w.memory, s.op) == []
    ensures Apply(w, s).memory.(claims := w.memory.claims) == w.memory
    ensures Apply(w, s).disk != w.disk ==>
              && Apply(w, s).disk.Some?
              && Apply(w, s).disk.value.order == w.memory.order
              && Apply(w, s).disk.value.floor == w.memory.floor
  {
  }

  /** Memory and file both summarise the recorded ids, whatever restarts happen in between. */
  lemma {:induction false} RunSummarises(retention: nat, steps: seq<Step>, least: nat)
    requires Run(Fresh(retention), steps) && 1 <= least <= retention
    requires forall s :: s in steps && s.op.Restart? ==> least <= s.op.retention
    ensures WorldSummarises(After(Fresh(retention), steps), Recorded(Fresh(retention), steps), least)
    ensures least <= After(Fresh(retention), steps).memory.retention
  {
    if steps != [] {
      var front, s := steps[..|steps| - 1], steps[|steps| - 1];
      RunSummarises(retention, front, least);
      RunSound(Fresh(retention), front);
      StepSummarises(After(Fresh(retention), front), s, Recorded(Fresh(retention), front), least);
    }
  }

  lemma {:induction false} RecordedWereMarked(w: World, steps: seq<Step>, id: int)
    requires forall s :: s in steps ==> s.op != Mark(Some(id))
    ensures id !in Recorded(w, steps)
  {
    if steps != [] {
      RecordedWereMarked(w, steps[..|steps| - 1], id);
      assert steps[|steps| - 1] in steps;
    }
  }

  /** Some id above `id` was recorded, and then at least `count` further ids were. */
  ghost predicate OvertakenBy(history: seq<int>, id: int, count: nat) {
    exists p :: 0 <= p < |history| && history[p] > id && count <= |history| - 1 - p
  }

  /**
   An id that was never answered is swallowed by the floor only after a larger
   id was recorded and then at least `least` further ids, where `least` bounds
   every retention used in the run from below.
   */
  lemma SwallowedOnlyWhenOvertaken(retention: nat, steps: seq<Step>, least: nat, id: int)
    requires Run(Fresh(retention), steps) && 1 <= least <= retention
    requires forall s :: s in steps && s.op.Restart? ==> least <= s.op.retention
    requires 1 <= id && forall s :: s in steps ==> s.op != Mark(Some(id))
    requires Answered(After(Fresh(retention), steps).memory, id)
    ensures OvertakenBy(Recorded(Fresh(retention), steps), id, least)
  {
    var w0 := Fresh(retention);
    var history, t := Recorded(w0, steps), After(w0, steps).memory;
    RunSummarises(retention, steps, least);
    RunSound(w0, steps);
    RecordedWereMarked(w0, steps, id);
    var d := |history| - |t.order|;
    assert id !in t.order by { assert forall j :: 0 <= j < |t.order| ==> t.order[j] == history[d + j]; }
    MaxOrIsMax(history[..d], 0);
    var p :| 0 <= p < d && history[..d][p] == t.floor;
    assert history[p] == t.floor && history[p] != id;
  }

  /** Every restart keeps the bound the run began with. */
  ghost predicate SameBound(retention: nat, steps: seq<Step>) {
    forall s :: s in steps && s.op.Restart? ==> s.op.retention == retention
  }

  lemma {:induction false} BoundStays(retention: nat, steps: seq<Step>)
    requires SameBound(retention, steps)
    ensures After(Fresh(retention), steps).memory.retention == retention
  {
    if steps != [] {
      assert steps[|steps| - 1] in steps;
      BoundStays(retention, steps[..|steps| - 1]);
    }
  }

  /** As long as restarts keep the bound, the FIFO is exactly the last `retention` recorded ids. */
  lemma FifoIsRecent(retention: nat, steps: seq<Step>)
    requires 1 <= retention && Run(Fresh(retention), steps) && SameBound(retention, steps)
    ensures var order, history := After(Fresh(retention), steps).memory.order, Recorded(Fresh(retention), steps);
            |order| == Min(|history|, retention) && order == history[|history| - |order|..]
  {
    BoundStays(retention, steps);
    RunSound(Fresh(retention), steps);
    RunSummarises(retention, steps, retention);
  }

  lemma OvertakenIsSwallowed(t: Tracker, history: seq<int>, id: int)
    requires Summarises(t.order, t.floor, history, 0)
    requires OvertakenBy(history, id, |t.order|)
    ensures Answered(t, id)
  {
    var d := |history| - |t.order|;
    var p :| 0 <= p < |history| && history[p] > id && |t.order| <= |history| - 1 - p;
    MaxOrIsMax(history[..d], 0);
    assert history[..d][p] == history[p];
  }

  /**
   As long as restarts keep the bound the condition is exact: an id that was never
   answered reads as answered if and only if a larger id was recorded and then at
   least `retention` further ids were.
   */
  lemma SwallowedExactly(retention: nat, steps: seq<Step>, id: int)
    requires 1 <= retention && Run(Fresh(retention), steps) && SameBound(retention, steps)
    requires 1 <= id && forall s :: s in steps ==> s.op != Mark(Some(id))
    ensures Answered(After(Fresh(retention), steps).memory, id) <==>
            OvertakenBy(Recorded(Fresh(retention), steps), id, retention)
  {
    var w0 := Fresh(retention);
    if Answered(After(w0, steps).memory, id) {
      SwallowedOnlyWhenOvertaken(retention, steps, retention, id);
    }
    if OvertakenBy(Recorded(w0, steps), id, retention) {
      FifoIsRecent(retention, steps);
      RunSummarises(retention, steps, retention);
      OvertakenIsSwallowed(After(w0, steps).memory, Recorded(w0, steps), id);
    }
  }

  // ------------------------------------------------------------- save and reload

  function Reloaded(t: Tracker, c: Clock, retention: nat, c': Clock): Tracker {
    Load(Save(World(t, None), c).disk, retention, c')
  }

  /** Reloading with a retention that is not smaller changes neither the answered order nor the floor. */
  lemma ReloadKeepsRecord(t: Tracker, c: Clock, retention: nat, c': Clock)
    requires WellFormed(t) && t.retention <= retention
    ensures WellFormed(Reloaded(t, c, retention, c'))
    ensures Reloaded(t, c, retention, c').(claims := t.claims) == t.(retention := retention)
    ensures Reloaded(t, c, retention, c').claims == RestoredClaims(ToPayload(Expire(t, c.mono), c).claims, c')
  {
    var p := Save(World(t, None), c).disk.value;
    assert p.order[0..] == p.order && p.order[..0] == [];
    PrunedWellFormed(Tracker(retention, Elements(p.order), p.order, p.floor, RestoredClaims(p.claims, c')));
  }

  lemma RestoredLease(claims: map<int, Lease>, c: Clock, c': Clock, id: int)
    ensures var restored := RestoredClaims(SavedClaims(Unexpired(claims, c.mono), c), c');
            && (id in restored <==>
                  id in claims && c.mono < claims[id].expiresAt &&
                  c'.wall - c.wall < claims[id].expiresAt - c.mono)
            && (id in restored ==>
                  && restored[id].owner == claims[id].owner
                  && restored[id].expiresAt - c'.mono == claims[id].expiresAt - c.mono - (c'.wall - c.wall))
  {
    var live := Unexpired(claims, c.mono);
    var saved := SavedClaims(live, c);
    assert id in saved <==> id in live;
    if id in live {
      assert NonNegative(live[id].expiresAt - c.mono) == live[id].expiresAt - c.mono;
    }
  }

  /**
   Exactly the leases live at the save and unexpired on the wall clock at the
   load survive, each with its owner and with its remaining time reduced by the
   wall time in between.
   */
  lemma ReloadKeepsLease(t: Tracker, c: Clock, retention: nat, c': Clock, id: int)
    requires WellFormed(t) && t.retention <= retention
    ensures var u := Reloaded(t, c, retention, c');
            && (id in u.claims <==> Leased(t, id, c.mono) && c'.wall - c.wall < t.claims[id].expiresAt - c.mono)
            && (id in u.claims ==>
                  && u.claims[id].owner == t.claims[id].owner
                  && u.claims[id].expiresAt - c'.mono == t.claims[id].expiresAt - c.mono - (c'.wall - c.wall))
  {
    ReloadKeepsRecord(t, c, retention, c');
    RestoredLease(t.claims, c, c', id);
  }

  /**
   `is_pending` agrees for every id: asking the reloaded tracker some time after
   the load is asking the saved one after the same wall time since the save.
   */
  lemma ReloadKeepsPending(t: Tracker, c: Clock, retention: nat, c': Clock, id: int, later: real)
    requires WellFormed(t) && t.retention <= retention
    requires c.wall <= c'.wall && 0.0 <= later
    ensures IsPending(Reloaded(t, c, retention, c'), id, c'.mono + later) <==>
            IsPending(t, id, c.mono + (c'.wall - c.wall) + later)
  {
    ReloadKeepsRecord(t, c, retention, c');
    var u := Reloaded(t, c, retention, c');
    assert Answered(u, id) <==> Answered(t, id);
    assert Leased(u, id, c'.mono + later) <==> Leased(t, id, c.mono + (c'.wall - c.wall) + later) by {
      ReloadKeepsLease(t, c, retention, c', id);
    }
  }

  /** A smaller retention on reload still keeps every answered id answered. */
  lemma SmallerReloadKeepsAnswers(t: Tracker, c: Clock, retention: nat, c': Clock, id: int)
    requires WellFormed(t) && 1 <= retention && Answered(t, id)
    ensures Answered(Reloaded(t, c, retention, c'), id)
  {
    var p := Save(World(t, None), c).disk.value;
    PrunedWellFormed(Tracker(retention, Elements(p.order), p.order, p.floor, RestoredClaims(p.claims, c')));
  }
}
