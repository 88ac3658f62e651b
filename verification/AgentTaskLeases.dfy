/**
 Exclusive leases over a run with restarts.

 The ledger is what an observer of the replies would write down: who last got or
 renewed each id and until when, in wall-clock time, and nothing once the id was
 released or answered.  A later grant of the same id must respect the ledger.
 */
module AgentTaskLeases {
  import opened Common
  import opened AgentTasks
  import opened JsonAgentTasks
  import opened AgentTaskRuns

  type Ledger = map<int, SavedLease>

  function Offset(c: Clock): real {
    c.wall - c.mono
  }

  function Later(a: real, b: real): real {
    if a < b then b else a
  }

  function Enter(l: Ledger, ids: set<int>, entry: SavedLease): Ledger {
    map id | id in l.Keys + ids :: if id in ids then entry else l[id]
  }

  /** One request and its reply, as the observer books them. */
  function Book(l: Ledger, s: Step, reply: Reply): Ledger {
    match s.op
    case Mark(id) => if id.Some? then l - {id.value} else l
    case Grab(_, owner, ttl) =>
      Enter(l, if reply.GrantedIds? then Elements(reply.granted) else {},
            SavedLease(owner, s.clock.wall + LeaseSeconds(ttl)))
    case Renew(_, owner, ttl) =>
      Enter(l, if reply.RenewedIds? then Elements(reply.renewed) else {},
            SavedLease(owner, s.clock.wall + LeaseSeconds(ttl)))
    case Release(id) => if id.Some? then l - {id.value} else l
    case ReleaseMany(_, _) => if reply.ReleasedIds? then l - Elements(reply.released) else l
    case _ => l
  }

  function LedgerAfter(w: World, steps: seq<Step>): Ledger {
    if steps == [] then map[]
    else
      var front, s := steps[..|steps| - 1], steps[|steps| - 1];
      Book(LedgerAfter(w, front), s, ReplyTo(After(w, front).memory, s.op, s.clock.mono))
  }

  /** The latest wall time a step shows the tracker; an explicit `now` may lie in the future. */
  function Shows(s: Step): real {
    var asked :=
      match s.op
      case Ask(_, at) => EffectiveNow(at, s.clock.mono) + Offset(s.clock)
      case Look(_, _, at) => EffectiveNow(at, s.clock.mono) + Offset(s.clock)
      case _ => s.clock.wall;
    Later(s.saved.wall, Later(s.clock.wall, asked))
  }

  function Seen(start: real, steps: seq<Step>): real {
    if steps == [] then start else Later(Seen(start, steps[..|steps| - 1]), Shows(steps[|steps| - 1]))
  }

  ghost predicate SteadyAt(start: real, steps: seq<Step>, k: nat)
    requires k < |steps|
  {
    && (if k == 0 then start else steps[k - 1].saved.wall) <= steps[k].clock.wall <= steps[k].saved.wall
    && Offset(steps[k].clock) == Offset(steps[k].saved)
    && (k > 0 && !steps[k].op.Restart? ==> Offset(steps[k - 1].clock) == Offset(steps[k].clock))
  }

  /**
   The clocks are steady: time does not run backwards, and within one process
   the wall clock and the monotonic clock advance together.
   */
  ghost predicate Steady(start: real, steps: seq<Step>) {
    forall k :: 0 <= k < |steps| ==> SteadyAt(start, steps, k)
  }

  lemma SteadyPrefix(start: real, steps: seq<Step>, j: nat)
    requires Steady(start, steps) && j <= |steps|
    ensures Steady(start, steps[..j])
  {
    forall k | 0 <= k < j ensures SteadyAt(start, steps[..j], k) {
      assert SteadyAt(start, steps, k);
    }
  }

  // ------------------------------------------------------------- the invariant

  ghost predicate MemoryFits(claims: map<int, Lease>, l: Ledger, offset: real, seen: real) {
    && (forall id :: id in claims ==> id in l && l[id] == SavedLease(claims[id].owner, claims[id].expiresAt + offset))
    && (forall id :: id in l && id !in claims ==> l[id].expiresAt <= seen)
  }

  ghost predicate DiskFits(disk: Option<Payload>, l: Ledger, seen: real) {
    match disk
    case None => l == map[]
    case Some(p) =>
      && (forall id :: id in p.claims ==> id in l && l[id] == p.claims[id])
      && (forall id :: id in l && id !in p.claims ==> l[id].expiresAt <= seen)
  }

  lemma ExpireFits(claims: map<int, Lease>, l: Ledger, offset: real, seen: real, now: real)
    requires MemoryFits(claims, l, offset, seen)
    ensures MemoryFits(Unexpired(claims, now), l, offset, Later(seen, now + offset))
  {
  }

  lemma AssignFits(
    claims: map<int, Lease>, l: Ledger, offset: real, seen: real, ids: set<int>, owner: string, end: real)
    requires MemoryFits(claims, l, offset, seen)
    ensures MemoryFits(Assign(claims, ids, Lease(owner, end)), Enter(l, ids, SavedLease(owner, end + offset)),
                       offset, seen)
  {
  }

  lemma ForgetFits(claims: map<int, Lease>, l: Ledger, offset: real, seen: real, ids: set<int>)
    requires MemoryFits(claims, l, offset, seen)
    ensures MemoryFits(claims - ids, l - ids, offset, seen)
  {
  }

  lemma LaterFits(claims: map<int, Lease>, l: Ledger, offset: real, seen: real, seen': real)
    requires MemoryFits(claims, l, offset, seen) && seen <= seen'
    ensures MemoryFits(claims, l, offset, seen')
  {
  }

  /** Expiring at `now` and then assigning some ids is what both a claim and a renewal do. */
  lemma HoldFits(
    claims: map<int, Lease>, l: Ledger, c: Clock, seen: real, seen': real, ids: set<int>, owner: string, ttl: real)
    requires MemoryFits(claims, l, Offset(c), seen) && Later(seen, c.wall) <= seen'
    ensures MemoryFits(Assign(Unexpired(claims, c.mono), ids, Lease(owner, c.mono + LeaseSeconds(ttl))),
                       Enter(l, ids, SavedLease(owner, c.wall + LeaseSeconds(ttl))), Offset(c), seen')
  {
    ExpireFits(claims, l, Offset(c), seen, c.mono);
    LaterFits(Unexpired(claims, c.mono), l, Offset(c), Later(seen, c.wall), seen');
    AssignFits(Unexpired(claims, c.mono), l, Offset(c), seen', ids, owner, c.mono + LeaseSeconds(ttl));
  }

  lemma DropFits(claims: map<int, Lease>, l: Ledger, offset: real, seen: real, seen': real, ids: set<int>)
    requires MemoryFits(claims, l, offset, seen) && seen <= seen'
    ensures MemoryFits(claims - ids, l - ids, offset, seen')
  {
    ForgetFits(claims, l, offset, seen, ids);
    LaterFits(claims - ids, l - ids, offset, seen, seen');
  }

  lemma QueryFits(claims: map<int, Lease>, l: Ledger, offset: real, seen: real, seen': real, now: real)
    requires MemoryFits(claims, l, offset, seen) && Later(seen, now + offset) <= seen'
    ensures MemoryFits(Unexpired(claims, now), l, offset, seen')
  {
    ExpireFits(claims, l, offset, seen, now);
    LaterFits(Unexpired(claims, now), l, offset, Later(seen, now + offset), seen');
  }

  lemma RequestFits(t: Tracker, s: Step, l: Ledger, seen: real)
    requires WellFormed(t) && !s.op.Restart?
    requires MemoryFits(t.claims, l, Offset(s.clock), seen)
    ensures MemoryFits(Act(t, s.op, s.clock.mono).claims, Book(l, s, ReplyTo(t, s.op, s.clock.mono)),
                       Offset(s.clock), Later(seen, Shows(s)))
  {
    var c, offset, now := s.clock, Offset(s.clock), s.clock.mono;
    var seen' := Later(seen, Shows(s));
    match s.op
    case Mark(id) =>
      if id.Some? {
        RecordWellFormed(t, id.value);
        DropFits(t.claims, l, offset, seen, seen', {id.value});
      } else {
        LaterFits(t.claims, l, offset, seen, seen');
      }
    case Grab(ids, owner, ttl) => HoldFits(t.claims, l, c, seen, seen', Elements(Grantable(t, ids, now)), owner, ttl);
    case Renew(ids, owner, ttl) =>
      HoldFits(t.claims, l, c, seen, seen', Elements(Renewable(t, ids, owner, now)), owner, ttl);
    case Release(id) =>
      DropFits(t.claims, l, offset, seen, seen', if id.Some? then {id.value} else {});
      assert l - {} == l;
    case ReleaseMany(ids, only) => DropFits(t.claims, l, offset, seen, seen', Elements(Releasable(t, ids, only)));
    case Ask(_, at) => QueryFits(t.claims, l, offset, seen, seen', EffectiveNow(at, now));
    case Look(_, _, at) => QueryFits(t.claims, l, offset, seen, seen', EffectiveNow(at, now));
  }

  lemma SaveFits(w: World, c: Clock, l: Ledger, seen: real)
    requires MemoryFits(w.memory.claims, l, Offset(c), seen)
    ensures MemoryFits(Save(w, c).memory.claims, l, Offset(c), Later(seen, c.wall))
    ensures DiskFits(Save(w, c).disk, l, Later(seen, c.wall))
  {
    ExpireFits(w.memory.claims, l, Offset(c), seen, c.mono);
    var live := Unexpired(w.memory.claims, c.mono);
    forall id | id in live
      ensures SavedClaims(live, c)[id] == SavedLease(live[id].owner, live[id].expiresAt + Offset(c))
    {
    }
  }

  lemma LoadFits(disk: Option<Payload>, retention: nat, c: Clock, l: Ledger, seen: real)
    requires DiskFits(disk, l, seen)
    ensures MemoryFits(Load(disk, retention, c).claims, l, Offset(c), Later(seen, c.wall))
  {
  }

  ghost predicate WorldFits(w: World, l: Ledger, offset: real, seen: real) {
    MemoryFits(w.memory.claims, l, offset, seen) && DiskFits(w.disk, l, seen)
  }

  lemma StepFits(w: World, s: Step, l: Ledger, offset: real, seen: real)
    requires Sound(w) && WorldFits(w, l, offset, seen)
    requires Offset(s.saved) == Offset(s.clock) && (s.op.Restart? || Offset(s.clock) == offset)
    ensures WorldFits(Apply(w, s), Book(l, s, ReplyTo(w.memory, s.op, s.clock.mono)),
                      Offset(s.clock), Later(seen, Shows(s)))
  {
    if s.op.Restart? {
      LoadFits(w.disk, s.op.retention, s.clock, l, seen);
      LaterFits(Apply(w, s).memory.claims, l, Offset(s.clock), Later(seen, s.clock.wall), Later(seen, Shows(s)));
    } else {
      RequestFits(w.memory, s, l, seen);
      if !s.op.Ask? && !s.op.Look? {
        SaveFits(w.(memory := Act(w.memory, s.op, s.clock.mono)), s.saved,
                 Book(l, s, ReplyTo(w.memory, s.op, s.clock.mono)), Later(seen, Shows(s)));
      }
    }
  }

  ghost predicate RunFits(retention: nat, start: real, steps: seq<Step>) {
    && (steps == [] || WorldFits(After(Fresh(retention), steps), LedgerAfter(Fresh(retention), steps),
                                 Offset(steps[|steps| - 1].clock), Seen(start, steps)))
  }

  /** The tracker's claims, in memory and on disk, always agree with the ledger. */
  lemma {:induction false} LedgerIsFaithful(retention: nat, start: real, steps: seq<Step>)
    requires Run(Fresh(retention), steps) && Steady(start, steps)
    ensures RunFits(retention, start, steps)
  {
    if steps != [] {
      var front, s := steps[..|steps| - 1], steps[|steps| - 1];
      SteadyPrefix(start, steps, |front|);
      assert SteadyAt(start, steps, |front|);
      LedgerIsFaithful(retention, start, front);
      RunSound(Fresh(retention), front);
      var offset := if front == [] then Offset(s.clock) else Offset(front[|front| - 1].clock);
      StepFits(After(Fresh(retention), front), s, LedgerAfter(Fresh(retention), front), offset, Seen(start, front));
    }
  }

  // --------------------------------------------------------------- main theorems

  predicate Grants(w: World, steps: seq<Step>, i: nat, id: int)
    requires i < |steps|
  {
    ReplyAt(w, steps, i).GrantedIds? && id in ReplyAt(w, steps, i).granted
  }

  predicate Renews(w: World, steps: seq<Step>, i: nat, id: int)
    requires i < |steps|
  {
    ReplyAt(w, steps, i).RenewedIds? && id in ReplyAt(w, steps, i).renewed
  }

  predicate Releases(w: World, steps: seq<Step>, i: nat, id: int)
    requires i < |steps|
  {
    || steps[i].op == Release(Some(id))
    || (ReplyAt(w, steps, i).ReleasedIds? && id in ReplyAt(w, steps, i).released)
  }

  /**
   Whenever an id is granted, any lease still on the ledger has already expired,
   judged by the latest time the tracker has been shown.
   */
  lemma GrantRespectsLedger(retention: nat, start: real, steps: seq<Step>, j: nat, id: int)
    requires Run(Fresh(retention), steps) && Steady(start, steps)
    requires j < |steps| && Grants(Fresh(retention), steps, j, id)
    ensures var l := LedgerAfter(Fresh(retention), steps[..j]);
            id in l ==> l[id].expiresAt <= Later(Seen(start, steps[..j]), steps[j].clock.wall)
  {
    var w := Fresh(retention);
    SteadyPrefix(start, steps, j);
    assert SteadyAt(start, steps, j);
    LedgerIsFaithful(retention, start, steps[..j]);
    var t := After(w, steps[..j]).memory;
    GrantedOnce(t, steps[j].op.ids, steps[j].clock.mono);
    assert IsPending(t, id, steps[j].clock.mono);
    if j > 0 {
      assert steps[..j][|steps[..j]| - 1] == steps[j - 1];
      assert Offset(steps[j - 1].clock) == Offset(steps[j].clock);
    }
  }

  /** No query names a moment later than the clock it is made at. */
  ghost predicate Prompt(steps: seq<Step>) {
    forall s :: s in steps ==>
      && (s.op.Ask? ==> EffectiveNow(s.op.at, s.clock.mono) <= s.clock.mono)
      && (s.op.Look? ==> EffectiveNow(s.op.at, s.clock.mono) <= s.clock.mono)
  }

  lemma {:induction false} SeenIsPast(start: real, steps: seq<Step>, j: nat)
    requires Steady(start, steps) && Prompt(steps) && j < |steps|
    ensures Seen(start, steps[..j]) <= steps[j].clock.wall
  {
    assert SteadyAt(start, steps, j);
    if j > 0 {
      var front := steps[..j][..j - 1];
      assert SteadyAt(start, steps, j - 1);
      assert front == steps[..j - 1];
      SeenIsPast(start, steps, j - 1);
      assert steps[j - 1] in steps;
    }
  }

  /** The ledger's entry for an id is its last grant or renewal. */
  ghost predicate LastHold(w: World, steps: seq<Step>, i: nat, m: nat, j: nat, id: int)
    requires j <= |steps|
  {
    && i <= m < j
    && (Grants(w, steps, m, id) || Renews(w, steps, m, id))
    && (forall n :: m < n < j ==> !Grants(w, steps, n, id) && !Renews(w, steps, n, id))
  }

  function HoldEnd(s: Step): real
    requires s.op.Grab? || s.op.Renew?
  {
    s.clock.wall + LeaseSeconds(s.op.ttl)
  }

  lemma LedgerStep(w: World, steps: seq<Step>, last: nat)
    requires last < |steps|
    ensures LedgerAfter(w, steps[..last + 1]) ==
            Book(LedgerAfter(w, steps[..last]), steps[last], ReplyAt(w, steps, last))
  {
    assert steps[..last + 1][..last] == steps[..last] && steps[..last + 1][last] == steps[last];
  }

  /** A request that does not concern an id leaves its ledger entry alone. */
  lemma BookElsewhere(w: World, steps: seq<Step>, last: nat, l: Ledger, id: int)
    requires last < |steps| && id in l
    requires !Grants(w, steps, last, id) && !Renews(w, steps, last, id)
    requires !Releases(w, steps, last, id) && steps[last].op != Mark(Some(id))
    ensures id in Book(l, steps[last], ReplyAt(w, steps, last))
    ensures Book(l, steps[last], ReplyAt(w, steps, last))[id] == l[id]
  {
  }

  lemma BookHold(w: World, steps: seq<Step>, last: nat, l: Ledger, id: int)
    requires last < |steps|
    requires Grants(w, steps, last, id) || Renews(w, steps, last, id)
    ensures steps[last].op.Grab? || steps[last].op.Renew?
    ensures id in Book(l, steps[last], ReplyAt(w, steps, last))
    ensures Book(l, steps[last], ReplyAt(w, steps, last))[id] == SavedLease(steps[last].op.owner, HoldEnd(steps[last]))
  {
  }

  /** A renewal keeps the owner on the ledger. */
  lemma RenewedByLedgerOwner(retention: nat, start: real, steps: seq<Step>, last: nat, id: int)
    requires Run(Fresh(retention), steps) && Steady(start, steps) && last < |steps|
    requires Renews(Fresh(retention), steps, last, id)
    ensures id in LedgerAfter(Fresh(retention), steps[..last])
    ensures steps[last].op.Renew? && steps[last].op.owner == LedgerAfter(Fresh(retention), steps[..last])[id].owner
  {
    SteadyPrefix(start, steps, last);
    LedgerIsFaithful(retention, start, steps[..last]);
    RenewedByHolder(After(Fresh(retention), steps[..last]).memory, steps[last].op.ids, steps[last].op.owner,
                    steps[last].clock.mono);
  }

  /** Before step `j` the ledger holds the id for the owner of grant `i`, as last extended by step `m`. */
  ghost predicate HeldSince(w: World, steps: seq<Step>, i: nat, m: nat, j: nat, id: int)
    requires i < |steps| && j <= |steps|
  {
    && LastHold(w, steps, i, m, j, id)
    && (steps[m].op.Grab? || steps[m].op.Renew?) && steps[i].op.Grab? && steps[m].op.owner == steps[i].op.owner
    && id in LedgerAfter(w, steps[..j])
    && LedgerAfter(w, steps[..j])[id] == SavedLease(steps[i].op.owner, HoldEnd(steps[m]))
  }

  lemma HoldTaken(w: World, steps: seq<Step>, i: nat, last: nat, id: int)
    requires i <= last < |steps| && (Grants(w, steps, last, id) || Renews(w, steps, last, id))
    requires steps[last].op.Grab? || steps[last].op.Renew?
    requires steps[i].op.Grab? && steps[last].op.owner == steps[i].op.owner
    ensures HeldSince(w, steps, i, last, last + 1, id)
  {
    LedgerStep(w, steps, last);
    BookHold(w, steps, last, LedgerAfter(w, steps[..last]), id);
  }

  lemma HoldKept(w: World, steps: seq<Step>, i: nat, m: nat, last: nat, id: int)
    requires i < |steps| && last < |steps| && HeldSince(w, steps, i, m, last, id)
    requires !Grants(w, steps, last, id) && !Renews(w, steps, last, id)
    requires !Releases(w, steps, last, id) && steps[last].op != Mark(Some(id))
    ensures HeldSince(w, steps, i, m, last + 1, id)
  {
    LedgerStep(w, steps, last);
    BookElsewhere(w, steps, last, LedgerAfter(w, steps[..last]), id);
  }

  lemma {:induction false} LedgerTracesHold(retention: nat, start: real, steps: seq<Step>, i: nat, j: nat, id: int)
    returns (m: nat)
    requires Run(Fresh(retention), steps) && Steady(start, steps)
    requires i < j <= |steps| && Grants(Fresh(retention), steps, i, id)
    requires forall n :: i < n < j ==> !Grants(Fresh(retention), steps, n, id)
    requires forall n :: i < n < j ==> !Releases(Fresh(retention), steps, n, id)
    requires forall n :: i < n < j ==> steps[n].op != Mark(Some(id))
    ensures HeldSince(Fresh(retention), steps, i, m, j, id)
  {
    var last := j - 1;
    if last == i {
      m := i;
      HoldTaken(Fresh(retention), steps, i, last, id);
    } else {
      m := LedgerTracesHold(retention, start, steps, i, last, id);
      if Renews(Fresh(retention), steps, last, id) {
        RenewedByLedgerOwner(retention, start, steps, last, id);
        HoldTaken(Fresh(retention), steps, i, last, id);
        m := last;
      } else {
        HoldKept(Fresh(retention), steps, i, m, last, id);
      }
    }
  }

  /**
   Between two consecutive grants of an id that was not released in between, the
   earlier lease, as last renewed by its own holder, has expired by the time of
   the second grant.  Restarts may lie in between.
   */
  lemma RegrantNeedsExpiry(retention: nat, start: real, steps: seq<Step>, i: nat, j: nat, id: int) returns (m: nat)
    requires Run(Fresh(retention), steps) && Steady(start, steps) && Prompt(steps)
    requires i < j < |steps| && Grants(Fresh(retention), steps, i, id) && Grants(Fresh(retention), steps, j, id)
    requires forall n :: i < n < j ==> !Grants(Fresh(retention), steps, n, id)
    requires forall n :: i < n < j ==> !Releases(Fresh(retention), steps, n, id)
    ensures LastHold(Fresh(retention), steps, i, m, j, id)
    ensures (steps[m].op.Grab? || steps[m].op.Renew?) && steps[m].op.owner == steps[i].op.owner
    ensures steps[m].clock.wall + steps[m].op.ttl <= steps[j].clock.wall
    ensures steps[m].clock.wall + 0.1 <= steps[j].clock.wall
  {
    forall n | i < n < j ensures steps[n].op != Mark(Some(id)) {
      if steps[n].op == Mark(Some(id)) {
        AnsweredForever(Fresh(retention), steps, n, j, id);
      }
    }
    m := LedgerTracesHold(retention, start, steps, i, j, id);
    GrantRespectsLedger(retention, start, steps, j, id);
    SeenIsPast(start, steps, j);
  }

  // ------------------------------------- one process, whatever its wall clock does

  /** The monotonic clock does not run backwards. */
  ghost predicate Monotonic(steps: seq<Step>) {
    forall k :: 0 <= k < |steps| ==>
      && steps[k].clock.mono <= steps[k].saved.mono
      && (k > 0 ==> steps[k - 1].saved.mono <= steps[k].clock.mono)
  }

  function OnMonotonic(s: Step): Step {
    s.(clock := Clock(s.clock.mono, s.clock.mono), saved := Clock(s.saved.mono, s.saved.mono))
  }

  /** The same requests, with a wall clock that shows the monotonic time. */
  function AllOnMonotonic(steps: seq<Step>): seq<Step> {
    seq(|steps|, i requires 0 <= i < |steps| => OnMonotonic(steps[i]))
  }

  lemma {:induction false} WallClockIsUnread(w: World, steps: seq<Step>)
    requires forall s :: s in steps ==> !s.op.Restart?
    ensures After(w, AllOnMonotonic(steps)).memory == After(w, steps).memory
  {
    if steps != [] {
      var front := steps[..|steps| - 1];
      assert steps[|steps| - 1] in steps;
      WallClockIsUnread(w, front);
      assert AllOnMonotonic(steps)[..|front|] == AllOnMonotonic(front);
    }
  }

  lemma RepliesAgree(w: World, steps: seq<Step>, n: nat, id: int)
    requires n < |steps| && forall s :: s in steps ==> !s.op.Restart?
    ensures Grants(w, AllOnMonotonic(steps), n, id) == Grants(w, steps, n, id)
    ensures Renews(w, AllOnMonotonic(steps), n, id) == Renews(w, steps, n, id)
    ensures Releases(w, AllOnMonotonic(steps), n, id) == Releases(w, steps, n, id)
  {
    assert AllOnMonotonic(steps)[..n] == AllOnMonotonic(steps[..n]);
    WallClockIsUnread(w, steps[..n]);
  }

  lemma MonotonicIsSteady(retention: nat, steps: seq<Step>)
    requires Run(Fresh(retention), steps) && Monotonic(steps) && Prompt(steps) && steps != []
    ensures Run(Fresh(retention), AllOnMonotonic(steps))
    ensures Steady(steps[0].clock.mono, AllOnMonotonic(steps)) && Prompt(AllOnMonotonic(steps))
  {
    var other := AllOnMonotonic(steps);
    forall s | s in other
      ensures Allowed(s)
      ensures s.op.Ask? ==> EffectiveNow(s.op.at, s.clock.mono) <= s.clock.mono
      ensures s.op.Look? ==> EffectiveNow(s.op.at, s.clock.mono) <= s.clock.mono
    {
      var k :| 0 <= k < |steps| && other[k] == s;
      assert steps[k] in steps && other[k] == OnMonotonic(steps[k]);
    }
    forall k | 0 <= k < |other| ensures SteadyAt(steps[0].clock.mono, other, k) {
      assert steps[k].clock.mono <= steps[k].saved.mono;
      assert k > 0 ==> steps[k - 1].saved.mono <= steps[k].clock.mono;
    }
  }

  /**
   Within one process the same holds of the monotonic clock alone: whatever the
   wall clock does, the earlier lease has expired by the time of the second grant.
   */
  lemma RegrantNeedsExpiryInProcess(retention: nat, steps: seq<Step>, i: nat, j: nat, id: int) returns (m: nat)
    requires Run(Fresh(retention), steps) && Monotonic(steps) && Prompt(steps)
    requires forall s :: s in steps ==> !s.op.Restart?
    requires i < j < |steps| && Grants(Fresh(retention), steps, i, id) && Grants(Fresh(retention), steps, j, id)
    requires forall n :: i < n < j ==> !Grants(Fresh(retention), steps, n, id)
    requires forall n :: i < n < j ==> !Releases(Fresh(retention), steps, n, id)
    ensures LastHold(Fresh(retention), steps, i, m, j, id)
    ensures (steps[m].op.Grab? || steps[m].op.Renew?) && steps[m].op.owner == steps[i].op.owner
    ensures steps[m].clock.mono + steps[m].op.ttl <= steps[j].clock.mono
    ensures steps[m].clock.mono + 0.1 <= steps[j].clock.mono
  {
    var w, other := Fresh(retention), AllOnMonotonic(steps);
    MonotonicIsSteady(retention, steps);
    forall n | 0 <= n < |steps|
      ensures Grants(w, other, n, id) == Grants(w, steps, n, id)
      ensures Renews(w, other, n, id) == Renews(w, steps, n, id)
      ensures Releases(w, other, n, id) == Releases(w, steps, n, id)
    {
      RepliesAgree(w, steps, n, id);
    }
    m := RegrantNeedsExpiry(retention, steps[0].clock.mono, other, i, j, id);
  }

  /**
   Why queries must be prompt: a live lease is lost to a query exactly when the
   query names a non-zero moment at or after the lease's expiry.
   */
  lemma QueryFreesLease(t: Tracker, id: int, query: Op, clock: real, later: real)
    requires (query.Ask? || query.Look?) && clock <= later
    requires !Answered(t, id) && Leased(t, id, later)
    ensures Grantable(Act(t, query, clock), [id], later) == [id] <==>
            query.at.Some? && query.at.value != 0.0 && t.claims[id].expiresAt <= query.at.value
  {
    var u := Act(t, query, clock);
    GrantedOnce(u, [id], later);
    assert id in u.claims <==> EffectiveNow(query.at, clock) < t.claims[id].expiresAt;
    if IsPending(u, id, later) {
      assert [id][..0] == [];
      assert Grantable(u, [id], later) == [id];
    }
  }

  /** So a half-minute lease taken at 1 can pass to a second worker at 3. */
  lemma FutureQueryBreaksLease()
    ensures var t := Granted(Empty(10), [1], "a", 30.0, 1.0);
            && Grantable(Empty(10), [1], 1.0) == [1]
            && Leased(t, 1, 3.0)
            && Grantable(Act(t, Ask(1, Some(100.0)), 2.0), [1], 3.0) == [1]
  {
    assert [1][..0] == [];
    assert Grantable(Empty(10), [1], 1.0) == [1];
    var t := Granted(Empty(10), [1], "a", 30.0, 1.0);
    assert 1 in t.claims && t.claims[1] == Lease("a", 31.0);
    QueryFreesLease(t, 1, Ask(1, Some(100.0)), 2.0, 3.0);
  }
}
