/**
 The agent-task lease tracker (voicebot/agent_tasks.py).

 Workers claim, renew, release and answer task ids.  Answered ids are kept in a
 bounded FIFO with a set beside it; ids that fall out of the FIFO are summarised
 by a numeric floor.  Clock readings are real-valued parameters.
 */
module AgentTasks {
  import opened Common

  datatype Lease = Lease(owner: string, expiresAt: real)

  /** The value of a tracker at one moment. */
  datatype Tracker = Tracker(
    retention: nat,
    responded: set<int>,
    order: seq<int>,
    floor: int,
    claims: map<int, Lease>)

  datatype TaskView =
    | Claimed(owner: string, expiresIn: real)
    | Responded
    | Pending
    | Inactive

  ghost predicate WellFormed(t: Tracker) {
    && 1 <= t.retention
    && |t.order| <= t.retention
    && NoDup(t.order)
    && t.responded == Elements(t.order)
  }

  function Empty(retention: nat): Tracker {
    Tracker(retention, {}, [], 0, map[])
  }

  predicate Answered(t: Tracker, id: int) {
    id <= t.floor || id in t.responded
  }

  /** The lease on an id counts only while its expiry lies in the future. */
  predicate Leased(t: Tracker, id: int, now: real) {
    id in t.claims && now < t.claims[id].expiresAt
  }

  predicate IsPending(t: Tracker, id: int, now: real) {
    !Answered(t, id) && !Leased(t, id, now)
  }

  predicate HeldBy(t: Tracker, id: int, owner: Option<string>) {
    id in t.claims && (owner.None? || t.claims[id].owner == owner.value)
  }

  /** `now or time.monotonic()`: an explicit 0.0 counts as absent. */
  function EffectiveNow(override: Option<real>, clock: real): real {
    if override.Some? && override.value != 0.0 then override.value else clock
  }

  /** Leases last at least a tenth of a second. */
  function LeaseSeconds(ttl: real): real {
    if ttl < 0.1 then 0.1 else ttl
  }

  function Unexpired(claims: map<int, Lease>, now: real): map<int, Lease> {
    map id | id in claims && now < claims[id].expiresAt :: claims[id]
  }

  function Expire(t: Tracker, now: real): Tracker {
    t.(claims := Unexpired(t.claims, now))
  }

  function Assign(claims: map<int, Lease>, ids: set<int>, c: Lease): map<int, Lease> {
    map id | id in claims.Keys + ids :: if id in ids then c else claims[id]
  }

  lemma AssignGrows(claims: map<int, Lease>, ids: seq<int>, id: int, c: Lease)
    ensures Assign(claims, Elements(ids + [id]), c) == Assign(claims, Elements(ids), c)[id := c]
  {
    assert forall x :: x in ids + [id] <==> x in ids || x == id;
  }

  /** How many of the oldest answered ids no longer fit. */
  function Overflow(size: nat, retention: nat): nat {
    if size <= retention then 0 else size - retention
  }

  /** Keep the newest `retention` answered ids and raise the floor over the rest. */
  function Pruned(t: Tracker): Tracker {
    var k := Overflow(|t.order|, t.retention);
    t.(responded := t.responded - Elements(t.order[..k]),
       order := t.order[k..],
       floor := MaxOr(t.order[..k], t.floor))
  }

  function Forget(t: Tracker, ids: set<int>): Tracker {
    t.(claims := t.claims - ids)
  }

  function Record(t: Tracker, id: int): Tracker {
    if id in t.responded then t
    else Pruned(t.(responded := t.responded + {id}, order := t.order + [id]))
  }

  function Marked(t: Tracker, id: Option<int>): Tracker {
    match id
    case None => t
    case Some(e) => Forget(Record(t, e), {e})
  }

  /** The ids of a claim request that are free, each once, at its first position. */
  function Grantable(t: Tracker, ids: seq<int>, now: real): seq<int> {
    if ids == [] then []
    else
      var before := Grantable(t, ids[..|ids| - 1], now);
      var id := ids[|ids| - 1];
      if IsPending(t, id, now) && id !in before then before + [id] else before
  }

  function Granted(t: Tracker, ids: seq<int>, owner: string, ttl: real, now: real): Tracker {
    var e := Expire(t, now);
    e.(claims := Assign(e.claims, Elements(Grantable(t, ids, now)), Lease(owner, now + LeaseSeconds(ttl))))
  }

  /** The ids of a release request held by the right owner, each once. */
  function Releasable(t: Tracker, ids: seq<int>, owner: Option<string>): seq<int> {
    if ids == [] then []
    else
      var before := Releasable(t, ids[..|ids| - 1], owner);
      var id := ids[|ids| - 1];
      if HeldBy(t, id, owner) && id !in before then before + [id] else before
  }

  /** The ids of a renew request whose live lease the owner holds; repeats are kept. */
  function Renewable(t: Tracker, ids: seq<int>, owner: string, now: real): seq<int> {
    if ids == [] then []
    else
      var before := Renewable(t, ids[..|ids| - 1], owner, now);
      var id := ids[|ids| - 1];
      if Leased(t, id, now) && t.claims[id].owner == owner then before + [id] else before
  }

  function Renewed(t: Tracker, ids: seq<int>, owner: string, ttl: real, now: real): Tracker {
    var e := Expire(t, now);
    e.(claims := Assign(e.claims, Elements(Renewable(t, ids, owner, now)), Lease(owner, now + LeaseSeconds(ttl))))
  }

  /** A live claim outranks the answered record, and both outrank the call's activity. */
  function View(t: Tracker, id: int, active: bool, now: real): TaskView {
    if Leased(t, id, now) then
      Claimed(t.claims[id].owner, t.claims[id].expiresAt - now)
    else if Answered(t, id) then Responded
    else if active then Pending
    else Inactive
  }

  // ---------------------------------------------------------------- requests

  /** The first position at which an id is asked for. */
  function FirstAt(ids: seq<int>, id: int): nat
    requires id in ids
  {
    if ids[0] == id then 0 else 1 + FirstAt(ids[1..], id)
  }

  lemma {:induction false} FirstAtExtend(ids: seq<int>, tail: seq<int>, id: int)
    requires id in ids + tail
    ensures id in ids ==> FirstAt(ids + tail, id) == FirstAt(ids, id) < |ids|
    ensures id !in ids ==> FirstAt(ids + tail, id) == |ids| + FirstAt(tail, id)
  {
    if ids == [] {
      assert ids + tail == tail;
    } else if ids[0] != id {
      assert (ids + tail)[1..] == ids[1..] + tail;
      FirstAtExtend(ids[1..], tail, id);
    }
  }

  /** A claim request grants exactly its free ids, each once. */
  lemma {:induction false} GrantedOnce(t: Tracker, ids: seq<int>, now: real)
    ensures NoDup(Grantable(t, ids, now))
    ensures forall id :: id in Grantable(t, ids, now) <==> id in ids && IsPending(t, id, now)
  {
    if ids != [] {
      GrantedOnce(t, ids[..|ids| - 1], now);
      assert ids == ids[..|ids| - 1] + [ids[|ids| - 1]];
    }
  }

  /** The grants come in the order in which the ids were first asked for. */
  lemma {:induction false} GrantedInOrder(t: Tracker, ids: seq<int>, now: real, i: nat, j: nat)
    requires i < j < |Grantable(t, ids, now)|
    ensures Grantable(t, ids, now)[i] in ids && Grantable(t, ids, now)[j] in ids
    ensures FirstAt(ids, Grantable(t, ids, now)[i]) < FirstAt(ids, Grantable(t, ids, now)[j])
  {
    var front, last := ids[..|ids| - 1], ids[|ids| - 1];
    var before := Grantable(t, front, now);
    GrantedOnce(t, ids, now);
    GrantedOnce(t, front, now);
    assert ids == front + [last];
    FirstAtExtend(front, [last], before[i]);
    if j < |before| {
      GrantedInOrder(t, front, now, i, j);
      FirstAtExtend(front, [last], before[j]);
    } else {
      FirstAtExtend(front, [last], last);
    }
  }

  lemma {:induction false} ReleasedOnce(t: Tracker, ids: seq<int>, owner: Option<string>)
    ensures NoDup(Releasable(t, ids, owner))
    ensures forall id :: id in Releasable(t, ids, owner) <==> id in ids && HeldBy(t, id, owner)
  {
    if ids != [] {
      ReleasedOnce(t, ids[..|ids| - 1], owner);
      assert ids == ids[..|ids| - 1] + [ids[|ids| - 1]];
    }
  }

  /** Only the holder renews, and never at or after the expiry. */
  lemma {:induction false} RenewedByHolder(t: Tracker, ids: seq<int>, owner: string, now: real)
    ensures forall id :: id in Renewable(t, ids, owner, now) <==>
              id in ids && Leased(t, id, now) && t.claims[id].owner == owner
  {
    if ids != [] {
      RenewedByHolder(t, ids[..|ids| - 1], owner, now);
      assert ids == ids[..|ids| - 1] + [ids[|ids| - 1]];
    }
  }

  /** Held by this owner until this moment, and no longer. */
  ghost predicate HeldUntil(t: Tracker, id: int, owner: string, end: real) {
    && id in t.claims && t.claims[id].owner == owner
    && forall later :: Leased(t, id, later) <==> later < end
  }

  /** The end of a lease taken or renewed at `now`: a lease lasts its length, and never less than 0.1 seconds. */
  ghost predicate LastsFrom(now: real, ttl: real, end: real) {
    (0.1 <= ttl ==> end == now + ttl) && (ttl < 0.1 ==> end == now + 0.1)
  }

  /** What leasing some ids at `now` has changed: their leases, and those that had run out. */
  ghost predicate Leases(t: Tracker, u: Tracker, ids: seq<int>, owner: string, end: real, now: real) {
    && u.(claims := t.claims) == t
    && (forall id :: id in ids ==> HeldUntil(u, id, owner, end))
    && (forall id :: id !in ids ==> (id in u.claims <==> id in t.claims && now < t.claims[id].expiresAt))
    && (forall id :: id !in ids && id in u.claims ==> u.claims[id] == t.claims[id])
  }

  lemma AssignLeases(t: Tracker, ids: seq<int>, owner: string, end: real, now: real)
    ensures var e := Expire(t, now);
            Leases(t, e.(claims := Assign(e.claims, Elements(ids), Lease(owner, end))), ids, owner, end, now)
  {
  }

  /**
   A claim grants exactly the ids asked for that are above the floor, not answered
   and not leased; it leases them to the owner until `now` plus the lease length,
   and otherwise only lets run-out leases go.
   */
  lemma ClaimExactly(t: Tracker, ids: seq<int>, owner: string, ttl: real, now: real) returns (end: real)
    ensures LastsFrom(now, ttl, end)
    ensures Leases(t, Granted(t, ids, owner, ttl, now), Grantable(t, ids, now), owner, end, now)
    ensures forall id :: id in Grantable(t, ids, now) <==>
              id in ids && t.floor < id && id !in t.responded && (id in t.claims ==> t.claims[id].expiresAt <= now)
  {
    end := now + LeaseSeconds(ttl);
    GrantedOnce(t, ids, now);
    AssignLeases(t, Grantable(t, ids, now), owner, end, now);
  }

  /** A renewal gives exactly the owner's own live leases among those asked for a new end. */
  lemma RenewExactly(t: Tracker, ids: seq<int>, owner: string, ttl: real, now: real) returns (end: real)
    ensures LastsFrom(now, ttl, end)
    ensures Leases(t, Renewed(t, ids, owner, ttl, now), Renewable(t, ids, owner, now), owner, end, now)
    ensures forall id :: id in Renewable(t, ids, owner, now) <==>
              id in ids && id in t.claims && t.claims[id].owner == owner && now < t.claims[id].expiresAt
  {
    end := now + LeaseSeconds(ttl);
    RenewedByHolder(t, ids, owner, now);
    AssignLeases(t, Renewable(t, ids, owner, now), owner, end, now);
  }

  /** A release drops exactly the leases asked for that are held, by the owner named if one is, and nothing else. */
  lemma ReleaseExactly(t: Tracker, ids: seq<int>, owner: Option<string>, id: int)
    ensures var u := Forget(t, Elements(Releasable(t, ids, owner)));
            && u.(claims := t.claims) == t
            && (id in u.claims <==>
                  id in t.claims && !(id in ids && (owner.None? || t.claims[id].owner == owner.value)))
            && (id in u.claims ==> u.claims[id] == t.claims[id])
            && (id in Releasable(t, ids, owner) <==> id in t.claims && id !in u.claims)
  {
    ReleasedOnce(t, ids, owner);
  }

  /**
   A task is shown as claimed while it is leased, with the time that is left; as
   answered if it is; as pending exactly if it may be claimed and its call lives.
   */
  lemma ShownExactly(t: Tracker, id: int, active: bool, now: real)
    ensures var view := View(t, id, active, now);
            && (view.Claimed? <==> id in t.claims && now < t.claims[id].expiresAt)
            && (view.Claimed? ==> HeldUntil(t, id, view.owner, now + view.expiresIn))
            && (view.Pending? <==> active && IsPending(t, id, now))
            && (view.Inactive? <==> !active && IsPending(t, id, now))
            && (view.Responded? <==> !view.Claimed? && (id <= t.floor || id in t.responded))
            && (Grantable(t, [id], now) == [id] <==> view.Pending? || view.Inactive?)
  {
    GrantedOnce(t, [id], now);
    assert [id][..0] == [];
    if IsPending(t, id, now) {
      assert Grantable(t, [id], now) == [id];
    }
  }

  lemma RecordWellFormed(t: Tracker, id: int)
    requires WellFormed(t)
    ensures WellFormed(Record(t, id)) && Record(t, id).claims == t.claims
    ensures Answered(Record(t, id), id)
    ensures forall e :: Answered(t, e) ==> Answered(Record(t, id), e)
  {
    if id !in t.responded {
      var u := t.(responded := t.responded + {id}, order := t.order + [id]);
      assert Answered(u, id);
      PrunedWellFormed(u);
    }
  }

  /** One answered id: the FIFO grows by it and gives up at most its oldest id to the floor. */
  lemma RecordShape(t: Tracker, id: int)
    requires WellFormed(t)
    ensures id in t.responded ==> Record(t, id) == t
    ensures id !in t.responded && |t.order| < t.retention ==>
              Record(t, id).order == t.order + [id] && Record(t, id).floor == t.floor
    ensures id !in t.responded && |t.order| == t.retention ==>
              Record(t, id).order == t.order[1..] + [id] &&
              Record(t, id).floor == Max(t.floor, t.order[0])
  {
    if id !in t.responded {
      var u := t.(responded := t.responded + {id}, order := t.order + [id]);
      if |t.order| == t.retention {
        assert u.order[..1] == [t.order[0]] && u.order[..1][..0] == [];
        assert MaxOr(u.order[..1], t.floor) == Max(MaxOr([], t.floor), t.order[0]);
        assert u.order[1..] == t.order[1..] + [id];
      } else {
        assert u.order[..0] == [] && u.order[0..] == u.order;
      }
    }
  }

  lemma PrunedWellFormed(t: Tracker)
    requires 1 <= t.retention && NoDup(t.order) && t.responded == Elements(t.order)
    ensures WellFormed(Pruned(t)) && Pruned(t).claims == t.claims
    ensures forall id :: Answered(t, id) ==> Answered(Pruned(t), id)
  {
    var k := Overflow(|t.order|, t.retention);
    assert t.order == t.order[..k] + t.order[k..];
    MaxOrIsMax(t.order[..k], t.floor);
    forall id ensures id in Pruned(t).responded <==> id in t.order[k..] {
      if id in t.order[k..] {
        var j :| 0 <= j < |t.order[k..]| && t.order[k..][j] == id;
        assert t.order[k + j] == id;
      }
    }
  }

  // ------------------------------------------------------------------- class

  class AgentTaskTracker {
    const maxResponded: nat
    var responded: set<int>
    var order: seq<int>
    var floor: int
    var claims: map<int, Lease>

    function State(): Tracker
      reads this
    {
      Tracker(maxResponded, responded, order, floor, claims)
    }

    constructor (maxRespondedEventIds: nat)
      requires 1 <= maxRespondedEventIds
      ensures State() == Empty(maxRespondedEventIds)
    {
      maxResponded := maxRespondedEventIds;
      responded, order, floor, claims := {}, [], 0, map[];
    }

    /** The retention must be positive; anything else is refused. */
    static method Create(maxRespondedEventIds: int) returns (r: Result<AgentTaskTracker>)
      ensures r.Ok? <==> 1 <= maxRespondedEventIds
      ensures r.Ok? ==> fresh(r.value) && r.value.State() == Empty(maxRespondedEventIds)
    {
      if maxRespondedEventIds < 1 {
        return Err("max_responded_event_ids must be at least 1");
      }
      var tracker := new AgentTaskTracker(maxRespondedEventIds);
      return Ok(tracker);
    }

    method MarkResponded(eventId: Option<int>)
      requires WellFormed(State())
      modifies this
      ensures State() == Marked(old(State()), eventId)
      ensures WellFormed(State())
    {
      if eventId.Some? {
        var id := eventId.value;
        if id !in responded {
          responded := responded + {id};
          order := order + [id];
          PruneResponded();
        }
        claims := claims - {id};
        RecordWellFormed(old(State()), id);
      }
    }

    method IsPendingNow(eventId: int, now: Option<real>, clock: real) returns (pending: bool)
      modifies this
      ensures pending == IsPending(old(State()), eventId, EffectiveNow(now, clock))
      ensures State() == Expire(old(State()), EffectiveNow(now, clock))
    {
      ExpireClaims(EffectiveNow(now, clock));
      pending := eventId > floor && eventId !in responded && eventId !in claims;
    }

    method Claim(eventIds: seq<int>, owner: string, ttlSeconds: real, clock: real) returns (claimed: seq<int>)
      modifies this
      ensures claimed == Grantable(old(State()), eventIds, clock)
      ensures State() == Granted(old(State()), eventIds, owner, ttlSeconds, clock)
    {
      ghost var t := State();
      var expiresAt := clock + LeaseSeconds(ttlSeconds);
      claimed := [];
      ExpireClaims(clock);
      ghost var e := State();
      for i := 0 to |eventIds|
        invariant claimed == Grantable(t, eventIds[..i], clock)
        invariant State() == e.(claims := Assign(e.claims, Elements(claimed), Lease(owner, expiresAt)))
      {
        assert eventIds[..i + 1][..i] == eventIds[..i];
        var eventId := eventIds[i];
        if eventId <= floor || eventId in responded || eventId in claims {
          continue;
        }
        AssignGrows(e.claims, claimed, eventId, Lease(owner, expiresAt));
        claims := claims[eventId := Lease(owner, expiresAt)];
        claimed := claimed + [eventId];
      }
      assert eventIds[..|eventIds|] == eventIds;
    }

    method Release(eventId: Option<int>)
      modifies this
      ensures State() == Forget(old(State()), if eventId.Some? then {eventId.value} else {})
    {
      if eventId.None? {
        return;
      }
      claims := claims - {eventId.value};
    }

    /** Releasing does not expire: a holder may release a lease it has outlived. */
    method ReleaseMany(eventIds: seq<int>, owner: Option<string>) returns (released: seq<int>)
      modifies this
      ensures released == Releasable(old(State()), eventIds, owner)
      ensures State() == Forget(old(State()), Elements(released))
    {
      ghost var t := State();
      released := [];
      for i := 0 to |eventIds|
        invariant released == Releasable(t, eventIds[..i], owner)
        invariant State() == Forget(t, Elements(released))
      {
        assert eventIds[..i + 1][..i] == eventIds[..i];
        var eventId := eventIds[i];
        if eventId in claims && (owner.None? || claims[eventId].owner == owner.value) {
          claims := claims - {eventId};
          released := released + [eventId];
        }
      }
      assert eventIds[..|eventIds|] == eventIds;
    }

    method RenewMany(eventIds: seq<int>, owner: string, ttlSeconds: real, clock: real) returns (renewed: seq<int>)
      modifies this
      ensures renewed == Renewable(old(State()), eventIds, owner, clock)
      ensures State() == Renewed(old(State()), eventIds, owner, ttlSeconds, clock)
    {
      ghost var t := State();
      var expiresAt := clock + LeaseSeconds(ttlSeconds);
      renewed := [];
      ExpireClaims(clock);
      ghost var e := State();
      for i := 0 to |eventIds|
        invariant renewed == Renewable(t, eventIds[..i], owner, clock)
        invariant State() == e.(claims := Assign(e.claims, Elements(renewed), Lease(owner, expiresAt)))
        invariant forall id :: id in renewed ==> id in e.claims && e.claims[id].owner == owner
      {
        assert eventIds[..i + 1][..i] == eventIds[..i];
        var eventId := eventIds[i];
        if eventId in claims && claims[eventId].owner == owner {
          AssignGrows(e.claims, renewed, eventId, Lease(owner, expiresAt));
          claims := claims[eventId := Lease(owner, expiresAt)];
          renewed := renewed + [eventId];
        }
      }
      assert eventIds[..|eventIds|] == eventIds;
    }

    method TaskState(eventId: int, active: bool, now: Option<real>, clock: real) returns (view: TaskView)
      modifies this
      ensures view == View(old(State()), eventId, active, EffectiveNow(now, clock))
      ensures State() == Expire(old(State()), EffectiveNow(now, clock))
    {
      var current := EffectiveNow(now, clock);
      ExpireClaims(current);
      if eventId in claims {
        var remaining := claims[eventId].expiresAt - current;
        return Claimed(claims[eventId].owner, if remaining < 0.0 then 0.0 else remaining);
      }
      if eventId <= floor || eventId in responded {
        return Responded;
      }
      return if active then Pending else Inactive;
    }

    method ExpireClaims(now: real)
      modifies this`claims
      ensures State() == Expire(old(State()), now)
    {
      var expired := set id | id in claims && claims[id].expiresAt <= now;
      claims := claims - expired;
    }

    method PruneResponded()
      modifies this
      ensures State() == Pruned(old(State()))
    {
      ghost var t := State();
      ghost var k := 0;
      while |order| > maxResponded
        invariant 0 <= k <= Overflow(|t.order|, maxResponded)
        invariant order == t.order[k..] && claims == t.claims
        invariant responded == t.responded - Elements(t.order[..k])
        invariant floor == MaxOr(t.order[..k], t.floor)
      {
        var eventId := order[0];
        assert t.order[..k + 1][..k] == t.order[..k] && t.order[..k + 1] == t.order[..k] + [eventId];
        order := order[1..];
        responded := responded - {eventId};
        floor := Max(floor, eventId);
        k := k + 1;
      }
    }
  }
}
