/**
 The persistent tracker (JsonAgentTaskTracker in voicebot/agent_tasks.py).

 A world is the tracker in memory plus the file it was last saved to.  Requests
 that change the tracker save it; polls and status queries only expire leases in
 memory.  A restart loads the file, so it sees the last save, not the memory.
 */
module JsonAgentTasks {
  import opened Common
  import opened AgentTasks

  /** One reading of time.monotonic() and time.time(). */
  datatype Clock = Clock(mono: real, wall: real)

  datatype SavedLease = SavedLease(owner: string, expiresAt: real)

  datatype Payload = Payload(order: seq<int>, floor: int, claims: map<int, SavedLease>)

  datatype World = World(memory: Tracker, disk: Option<Payload>)

  datatype Op =
    | Mark(id: Option<int>)
    | Grab(ids: seq<int>, owner: string, ttl: real)
    | Renew(ids: seq<int>, owner: string, ttl: real)
    | Release(id: Option<int>)
    | ReleaseMany(ids: seq<int>, only: Option<string>)
    | Ask(event: int, at: Option<real>)
    | Look(event: int, active: bool, at: Option<real>)
    | Restart(retention: nat)

  /** A request with the clock it reads and the later clock its save reads. */
  datatype Step = Step(op: Op, clock: Clock, saved: Clock)

  datatype Reply =
    | Silent
    | GrantedIds(granted: seq<int>)
    | RenewedIds(renewed: seq<int>)
    | ReleasedIds(released: seq<int>)
    | Answer(pending: bool)
    | Shown(view: TaskView)

  // ------------------------------------------------------------ save and load

  function NonNegative(x: real): real {
    if x < 0.0 then 0.0 else x
  }

  function SavedClaims(claims: map<int, Lease>, c: Clock): map<int, SavedLease> {
    map id | id in claims :: SavedLease(claims[id].owner, c.wall + NonNegative(claims[id].expiresAt - c.mono))
  }

  function ToPayload(t: Tracker, c: Clock): Payload {
    Payload(t.order, t.floor, SavedClaims(t.claims, c))
  }

  function Save(w: World, c: Clock): World {
    var t := Expire(w.memory, c.mono);
    World(t, Some(ToPayload(t, c)))
  }

  function RestoredClaims(saved: map<int, SavedLease>, c: Clock): map<int, Lease> {
    map id | id in saved && c.wall < saved[id].expiresAt ::
      Lease(saved[id].owner, c.mono + (saved[id].expiresAt - c.wall))
  }

  function Load(disk: Option<Payload>, retention: nat, c: Clock): Tracker {
    match disk
    case None => Empty(retention)
    case Some(p) => Pruned(Tracker(retention, Elements(p.order), p.order, p.floor, RestoredClaims(p.claims, c)))
  }

  // --------------------------------------------------------------------- steps

  function Act(t: Tracker, op: Op, now: real): Tracker {
    match op
    case Mark(id) => Marked(t, id)
    case Grab(ids, owner, ttl) => Granted(t, ids, owner, ttl, now)
    case Renew(ids, owner, ttl) => Renewed(t, ids, owner, ttl, now)
    case Release(id) => Forget(t, if id.Some? then {id.value} else {})
    case ReleaseMany(ids, only) => Forget(t, Elements(Releasable(t, ids, only)))
    case Ask(_, at) => Expire(t, EffectiveNow(at, now))
    case Look(_, _, at) => Expire(t, EffectiveNow(at, now))
    case Restart(_) => t
  }

  function ReplyTo(t: Tracker, op: Op, now: real): Reply {
    match op
    case Grab(ids, _, _) => GrantedIds(Grantable(t, ids, now))
    case Renew(ids, owner, _) => RenewedIds(Renewable(t, ids, owner, now))
    case ReleaseMany(ids, only) => ReleasedIds(Releasable(t, ids, only))
    case Ask(id, at) => Answer(IsPending(t, id, EffectiveNow(at, now)))
    case Look(id, active, at) => Shown(View(t, id, active, EffectiveNow(at, now)))
    case _ => Silent
  }

  function Apply(w: World, s: Step): World {
    match s.op
    case Restart(retention) => World(Load(w.disk, retention, s.clock), w.disk)
    case Ask(_, _) => w.(memory := Act(w.memory, s.op, s.clock.mono))
    case Look(_, _, _) => w.(memory := Act(w.memory, s.op, s.clock.mono))
    case _ => Save(w.(memory := Act(w.memory, s.op, s.clock.mono)), s.saved)
  }

  // ------------------------------------------------------------------- class

  /** The tracker of one process together with the file it owns. */
  class JsonAgentTaskTracker {
    const tracker: AgentTaskTracker
    var file: Option<Payload>

    ghost function State(): World
      reads this, tracker
    {
      World(tracker.State(), file)
    }

    /** Starting a process on an existing file, which may be absent or unreadable. */
    constructor (found: Option<Payload>, maxRespondedEventIds: nat, clock: Clock)
      requires 1 <= maxRespondedEventIds
      ensures fresh(tracker)
      ensures State() == World(Load(found, maxRespondedEventIds, clock), found)
    {
      tracker := new AgentTaskTracker(maxRespondedEventIds);
      file := found;
      new;
      if found.Some? {
        var payload := found.value;
        tracker.responded := Elements(payload.order);
        tracker.order := payload.order;
        tracker.floor := payload.floor;
        tracker.PruneResponded();
        tracker.claims := RestoredClaims(payload.claims, clock);
      }
    }

    method SaveFile(clock: Clock)
      modifies this, tracker
      ensures State() == Save(old(State()), clock)
    {
      tracker.ExpireClaims(clock.mono);
      file := Some(Payload(tracker.order, tracker.floor, SavedClaims(tracker.claims, clock)));
    }

    method MarkResponded(eventId: Option<int>, clock: Clock, saved: Clock)
      requires WellFormed(State().memory)
      modifies this, tracker
      ensures State() == Apply(old(State()), Step(Mark(eventId), clock, saved))
    {
      tracker.MarkResponded(eventId);
      SaveFile(saved);
    }

    method Claim(eventIds: seq<int>, owner: string, ttlSeconds: real, clock: Clock, saved: Clock)
      returns (claimed: seq<int>)
      modifies this, tracker
      ensures State() == Apply(old(State()), Step(Grab(eventIds, owner, ttlSeconds), clock, saved))
      ensures GrantedIds(claimed) == ReplyTo(old(State()).memory, Grab(eventIds, owner, ttlSeconds), clock.mono)
    {
      claimed := tracker.Claim(eventIds, owner, ttlSeconds, clock.mono);
      SaveFile(saved);
    }

    method ReleaseOne(eventId: Option<int>, clock: Clock, saved: Clock)
      modifies this, tracker
      ensures State() == Apply(old(State()), Step(Release(eventId), clock, saved))
    {
      tracker.Release(eventId);
      SaveFile(saved);
    }

    method ReleaseAll(eventIds: seq<int>, owner: Option<string>, clock: Clock, saved: Clock)
      returns (released: seq<int>)
      modifies this, tracker
      ensures State() == Apply(old(State()), Step(ReleaseMany(eventIds, owner), clock, saved))
      ensures ReleasedIds(released) == ReplyTo(old(State()).memory, ReleaseMany(eventIds, owner), clock.mono)
    {
      released := tracker.ReleaseMany(eventIds, owner);
      SaveFile(saved);
    }

    method RenewMany(eventIds: seq<int>, owner: string, ttlSeconds: real, clock: Clock, saved: Clock)
      returns (renewed: seq<int>)
      modifies this, tracker
      ensures State() == Apply(old(State()), Step(Renew(eventIds, owner, ttlSeconds), clock, saved))
      ensures RenewedIds(renewed) == ReplyTo(old(State()).memory, Renew(eventIds, owner, ttlSeconds), clock.mono)
    {
      renewed := tracker.RenewMany(eventIds, owner, ttlSeconds, clock.mono);
      SaveFile(saved);
    }
  }
}
