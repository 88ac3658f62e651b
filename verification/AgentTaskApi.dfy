/**
 The HTTP steps around the tracker: polling, claiming, releasing, renewing
 (voicebot/api_agent_tasks.py) and submitting responses (voicebot/api_calls.py).
 */
module AgentTaskApi {
  import opened Common
  import opened Events
  import T = AgentTasks
  import J = JsonAgentTasks
  import R = AgentTaskRuns

  const SCAN_LIMIT := 1000
  const LIMIT_MAXIMUM := 1000

  predicate IsRequest(e: Event) {
    e.kind == "agent_response_requested"
  }

  predicate Offerable(t: T.Tracker, now: real, active: set<string>, callId: Option<string>, e: Event) {
    IsRequest(e) && T.IsPending(t, e.id, now) && e.callId in active && (callId.None? || e.callId == callId.value)
  }

  /** The clock readings of a poll, one for each event it checks; time does not run backwards. */
  type Readings = nat -> real

  ghost predicate Monotonic(clocks: Readings) {
    forall i, j :: i <= j ==> clocks(i) <= clocks(j)
  }

  /** The tasks a poll may offer, in the order of the event window. */
  function Offers(
    t: T.Tracker, clocks: Readings, active: set<string>, callId: Option<string>, events: seq<Event>): seq<Event>
  {
    if events == [] then []
    else
      var i := |events| - 1;
      var front := Offers(t, clocks, active, callId, events[..i]);
      if Offerable(t, clocks(i), active, callId, events[i]) then front + [events[i]] else front
  }

  lemma {:induction false} OffersAreOpen(
    t: T.Tracker, clocks: Readings, active: set<string>, callId: Option<string>, events: seq<Event>)
    ensures forall e :: e in Offers(t, clocks, active, callId, events) <==>
              exists i :: 0 <= i < |events| && events[i] == e && OpenAt(t, clocks(i), active, callId, e)
  {
    if events != [] {
      var front := events[..|events| - 1];
      OffersAreOpen(t, clocks, active, callId, front);
      assert forall i :: 0 <= i < |front| ==> events[i] == front[i];
    }
  }

  /** A request of a live call, of the one asked about if any, that is neither answered nor leased at this moment. */
  predicate OpenAt(t: T.Tracker, now: real, active: set<string>, callId: Option<string>, e: Event) {
    && e.kind == "agent_response_requested" && e.callId in active && (callId.Some? ==> e.callId == callId.value)
    && t.floor < e.id && e.id !in t.responded && (e.id in t.claims ==> t.claims[e.id].expiresAt <= now)
  }

  predicate Claimable(window: seq<Event>, active: set<string>, id: int) {
    var e := Find(window, id);
    e.Some? && IsRequest(e.value) && e.value.callId in active
  }

  /** The ids of a claim request that name retained requests of active calls. */
  function Eligible(window: seq<Event>, active: set<string>, ids: seq<int>): seq<int> {
    if ids == [] then []
    else
      var front, last := Eligible(window, active, ids[..|ids| - 1]), ids[|ids| - 1];
      if Claimable(window, active, last) then front + [last] else front
  }

  lemma {:induction false} EligibleIsSelection(window: seq<Event>, active: set<string>, ids: seq<int>)
    ensures forall id :: id in Eligible(window, active, ids) <==>
              && id in ids && Find(window, id).Some?
              && Find(window, id).value.kind == "agent_response_requested" && Find(window, id).value.callId in active
  {
    if ids != [] {
      EligibleIsSelection(window, active, ids[..|ids| - 1]);
      assert ids == ids[..|ids| - 1] + [ids[|ids| - 1]];
    }
  }

  datatype Books = Books(history: seq<Event>, nextId: int)

  /** How a fractional number is printed. */
  type Printer = real -> string

  /** The seconds since an event by the clock read for it, if its timestamp can be read. */
  type Ages = Event -> Option<real>

  /** What is noted of each task: the kind of event, the worker, the lease length, and for claims the task's age. */
  datatype Note = Note(kind: string, owner: Option<string>, lease: Option<real>, ages: Ages)

  const AGELESS: Ages := _ => None

  function LogOne(b: Books, callId: string, kind: string, data: Data, now: string): Books {
    Books(b.history + [Event(b.nextId, callId, kind, now, data)], b.nextId + 1)
  }

  function TaskData(id: int, owner: Option<string>): Data {
    var data: Data := map["task_event_id" := Number(id)];
    if owner.Some? then data["owner" := Text(owner.value)] else data
  }

  function NoteData(id: int, note: Note, printer: Printer): Data {
    var data := TaskData(id, note.owner);
    if note.lease.Some? then data["ttl_seconds" := Fraction(note.lease.value, printer(note.lease.value))] else data
  }

  function WaitData(id: int, owner: Option<string>, age: real, printer: Printer): Data {
    var waited := if age < 0.0 then 0.0 else age;
    TaskData(id, owner)["name" := Text("agent_task_pickup_latency_seconds")]
      ["value" := Fraction(waited, printer(waited))]
  }

  /** Event data that names the request it answers, if it answers one. */
  function Answering(responseTo: Option<int>, data: Data): Data {
    if responseTo.Some? then data["response_to_event_id" := Number(responseTo.value)] else data
  }

  function CountData(responseTo: Option<int>, chunks: nat): Data {
    Answering(responseTo, map["name" := Text("stream_chunk_count"), "value" := Number(chunks)])
  }

  function FinalData(request: Submission): Data {
    var kind := if request.kind.Some? && request.kind.value != "" then request.kind.value else "stream_finalized";
    Answering(request.responseTo,
              map["text" := Text(""), "response_kind" := Text(kind), "stream_finalized" := Flag(true)])
  }

  function FailureData(request: Submission, error: string): Data {
    Answering(request.responseTo, map["reason" := Text("playback_failed"), "error" := Text(error)])
  }

  /** A note on the task's source event and, for a claim, how long the task waited. */
  function NoteOne(b: Books, bound: nat, id: int, note: Note, printer: Printer, now: string): Books {
    var source := Find(Window(b.history, bound), id);
    if source.None? then b
    else
      var callId := source.value.callId;
      var noted := LogOne(b, callId, note.kind, NoteData(id, note, printer), now);
      if note.kind == "agent_task_claimed" && note.ages(source.value).Some?
      then LogOne(noted, callId, "metrics", WaitData(id, note.owner, note.ages(source.value).value, printer), now)
      else noted
  }

  /** One note per id whose source event is still retained when its turn comes. */
  function Noted(b: Books, bound: nat, ids: seq<int>, note: Note, printer: Printer, now: string): Books {
    if ids == [] then b
    else NoteOne(Noted(b, bound, ids[..|ids| - 1], note, printer, now), bound, ids[|ids| - 1], note, printer, now)
  }

  /** What a claim, a renewal or a release notes of a task whose request is retained, and the metric of a claim. */
  ghost predicate Notes(b: Books, after: Books, callId: string, id: int, note: Note, age: Option<real>,
                        printer: Printer, now: string)
  {
    var n := |b.history|;
    var task := map["task_event_id" := Number(id)];
    var data := if note.owner.Some? then task["owner" := Text(note.owner.value)] else task;
    && b.history <= after.history && after.nextId == b.nextId + |after.history| - n
    && |after.history| == n + (if note.kind == "agent_task_claimed" && age.Some? then 2 else 1)
    && after.history[n] == Event(b.nextId, callId, note.kind, now, after.history[n].data)
    && (note.lease.None? ==> after.history[n].data == data)
    && (note.lease.Some? ==>
          after.history[n].data == data["ttl_seconds" := Fraction(note.lease.value, printer(note.lease.value))])
    && (|after.history| == n + 2 ==>
          after.history[n + 1] == Event(b.nextId + 1, callId, "metrics", now, after.history[n + 1].data) &&
          Waited(data, after.history[n + 1].data, age.value))
  }

  /** The metric tells the task, the worker and how long the task waited, and never less than nothing. */
  predicate Waited(task: Data, data: Data, age: real) {
    && data - {"name", "value"} == task
    && "name" in data && data["name"] == Text("agent_task_pickup_latency_seconds")
    && "value" in data && data["value"].Fraction?
    && 0.0 <= data["value"].value && (0.0 <= age ==> data["value"].value == age)
    && (age < 0.0 ==> data["value"].value == 0.0)
  }

  lemma WaitedSo(id: int, owner: Option<string>, age: real, printer: Printer)
    ensures Waited(TaskData(id, owner), WaitData(id, owner, age, printer), age)
  {
    assert "name" !in TaskData(id, owner) && "value" !in TaskData(id, owner);
    assert WaitData(id, owner, age, printer) - {"name", "value"} == TaskData(id, owner);
  }

  /** Tasks are noted one after another, each exactly if its request is still retained when its turn comes. */
  lemma NotedExactly(b: Books, bound: nat, ids: seq<int>, id: int, note: Note, printer: Printer, now: string)
    ensures Noted(b, bound, [], note, printer, now) == b
    ensures var before := Noted(b, bound, ids, note, printer, now);
            var after := Noted(b, bound, ids + [id], note, printer, now);
            var source := Find(Window(before.history, bound), id);
            && (source.None? ==> after == before)
            && (source.Some? ==>
                  Notes(before, after, source.value.callId, id, note, note.ages(source.value), printer, now))
  {
    assert (ids + [id])[..|ids|] == ids;
    NotesSo(Noted(b, bound, ids, note, printer, now), bound, id, note, printer, now);
  }

  lemma NotesSo(b: Books, bound: nat, id: int, note: Note, printer: Printer, now: string)
    ensures var source, after := Find(Window(b.history, bound), id), NoteOne(b, bound, id, note, printer, now);
            && (source.None? ==> after == b)
            && (source.Some? ==> Notes(b, after, source.value.callId, id, note, note.ages(source.value), printer, now))
  {
    if Find(Window(b.history, bound), id).Some? && note.ages(Find(Window(b.history, bound), id).value).Some? {
      WaitedSo(id, note.owner, note.ages(Find(Window(b.history, bound), id).value).value, printer);
    }
  }

  datatype Submission = Submission(responseTo: Option<int>, kind: Option<string>, partial: bool, finalizeOnly: bool)

  /** Only a finalisation or a non-partial answer completes its task. */
  predicate Completes(r: Submission) {
    r.finalizeOnly || !r.partial
  }

  predicate IsChunk(e: Event, id: int) {
    && e.kind == "agent_response_partial"
    && "response_to_event_id" in e.data && e.data["response_to_event_id"] == Number(id)
    && "response_kind" in e.data && e.data["response_kind"] == Text("stream_chunk")
  }

  function CountChunks(events: seq<Event>, id: int): nat {
    if events == [] then 0
    else CountChunks(events[..|events| - 1], id) + if IsChunk(events[|events| - 1], id) then 1 else 0
  }

  /** The stream chunks of a response among the first 1000 retained events of the call. */
  function ChunkCount(window: seq<Event>, callId: string, responseTo: Option<int>): nat {
    if responseTo.None? then 0
    else CountChunks(First(Filter(window, 0, Some(callId)), SCAN_LIMIT), responseTo.value)
  }

  /** The places of an answer's stream chunks. */
  ghost function ChunkPlaces(events: seq<Event>, id: int): set<int> {
    set i | 0 <= i < |events| && events[i].kind == "agent_response_partial" &&
            "response_to_event_id" in events[i].data && events[i].data["response_to_event_id"] == Number(id) &&
            "response_kind" in events[i].data && events[i].data["response_kind"] == Text("stream_chunk")
  }

  lemma {:induction false} ChunksAreCounted(events: seq<Event>, id: int)
    ensures CountChunks(events, id) == |ChunkPlaces(events, id)|
  {
    if events != [] {
      var n := |events| - 1;
      ChunksAreCounted(events[..n], id);
      assert ChunkPlaces(events, id) ==
             ChunkPlaces(events[..n], id) + if n in ChunkPlaces(events, id) then {n} else {};
    }
  }

  /** The chunks counted are the answer's, among the first 1000 retained events of the call. */
  lemma ChunkCountExactly(window: seq<Event>, callId: string, responseTo: Option<int>)
    ensures responseTo.None? ==> ChunkCount(window, callId, responseTo) == 0
    ensures responseTo.Some? ==>
              ChunkCount(window, callId, responseTo) ==
              |ChunkPlaces(First(Filter(window, 0, Some(callId)), 1000), responseTo.value)|
  {
    if responseTo.Some? {
      ChunksAreCounted(First(Filter(window, 0, Some(callId)), 1000), responseTo.value);
    }
  }

  /** The data, and the request it answers if there is one. */
  predicate Answers(data: Data, responseTo: Option<int>, rest: Data) {
    data == if responseTo.Some? then rest["response_to_event_id" := Number(responseTo.value)] else rest
  }

  /**
   What the submission itself logs: of a finalisation the number of chunks, if
   there were any, and that it is over; of a failed playback the error; else nothing.
   */
  lemma LoggedExactly(
    callId: string, request: Submission, chunks: nat, failure: Option<string>, id: int, now: string)
    ensures var out := Outcome(callId, request, chunks, failure, id, now);
            var last := |out| - 1;
            && |out| == (if request.finalizeOnly then if chunks > 0 then 2 else 1
                         else if failure.Some? then 1 else 0)
            && (forall i :: 0 <= i < |out| ==> out[i] == Event(id + i, callId, out[i].kind, now, out[i].data))
            && (|out| == 2 ==>
                  out[0].kind == "metrics" &&
                  Answers(out[0].data, request.responseTo,
                          map["name" := Text("stream_chunk_count"), "value" := Number(chunks)]))
            && (request.finalizeOnly ==>
                  out[last].kind == "agent_response_received" &&
                  Answers(out[last].data, request.responseTo,
                          map["text" := Text(""), "stream_finalized" := Flag(true), "response_kind" :=
                              Text(if request.kind.None? || request.kind == Some("") then "stream_finalized"
                                   else request.kind.value)]))
            && (!request.finalizeOnly && failure.Some? ==>
                  out[last].kind == "agent_response_dropped" &&
                  Answers(out[last].data, request.responseTo,
                          map["reason" := Text("playback_failed"), "error" := Text(failure.value)]))
  {
  }

  /** What the request itself puts on the log; the session logs the playback. */
  function Outcome(
    callId: string, request: Submission, chunks: nat, failure: Option<string>, id: int, now: string): seq<Event>
  {
    if request.finalizeOnly then
      if chunks > 0 then
        [Event(id, callId, "metrics", now, CountData(request.responseTo, chunks))] +
        [Event(id + 1, callId, "agent_response_received", now, FinalData(request))]
      else
        [Event(id, callId, "agent_response_received", now, FinalData(request))]
    else if failure.Some? then
      [Event(id, callId, "agent_response_dropped", now, FailureData(request, failure.value))]
    else
      []
  }

  function Submitted(t: T.Tracker, requests: seq<Submission>): T.Tracker {
    if requests == [] then t
    else
      var before, last := Submitted(t, requests[..|requests| - 1]), requests[|requests| - 1];
      if Completes(last) then T.Marked(before, last.responseTo) else before
  }

  /** Stream chunks alone leave the tracker as it was. */
  lemma {:induction false} ChunksNeverComplete(t: T.Tracker, requests: seq<Submission>)
    requires forall r :: r in requests ==> r.partial && !r.finalizeOnly
    ensures Submitted(t, requests) == t
  {
    if requests != [] {
      ChunksNeverComplete(t, requests[..|requests| - 1]);
      assert requests[|requests| - 1] in requests;
    }
  }

  /** After a completing submission, later submissions of any kind keep its task closed. */
  lemma {:induction false} CompletionIsFinal(t: T.Tracker, requests: seq<Submission>, i: nat, id: int)
    requires T.WellFormed(t) && i < |requests| && requests[i].responseTo == Some(id)
    requires requests[i].finalizeOnly || !requests[i].partial
    ensures T.WellFormed(Submitted(t, requests)) && R.Closed(Submitted(t, requests), id)
  {
    var front, last := requests[..|requests| - 1], requests[|requests| - 1];
    SubmittedWellFormed(t, front);
    var before := Submitted(t, front);
    if last.responseTo.Some? {
      T.RecordWellFormed(before, last.responseTo.value);
    }
    if i < |front| {
      CompletionIsFinal(t, front, i, id);
      if Completes(last) && last.responseTo.Some? {
        R.MarkKeepsClosed(before, last.responseTo.value, id);
      }
    }
  }

  lemma {:induction false} SubmittedWellFormed(t: T.Tracker, requests: seq<Submission>)
    requires T.WellFormed(t)
    ensures T.WellFormed(Submitted(t, requests))
  {
    if requests != [] {
      SubmittedWellFormed(t, requests[..|requests| - 1]);
      var last := requests[|requests| - 1];
      if Completes(last) && last.responseTo.Some? {
        T.RecordWellFormed(Submitted(t, requests[..|requests| - 1]), last.responseTo.value);
      }
    }
  }

  /** Leases that have expired by a first reading have expired by a later one. */
  lemma ExpireTwice(t: T.Tracker, earlier: real, later: real)
    requires earlier <= later
    ensures T.Expire(T.Expire(t, earlier), later) == T.Expire(t, later)
  {
  }

  class AgentTasksApi {
    const events: EventStore
    const tracker: T.AgentTaskTracker
    const printer: Printer
    /** Every id a submission has completed so far. */
    ghost var completed: set<int>

    ghost predicate Valid()
      reads this, events, tracker
    {
      && events.Counting()
      && T.WellFormed(tracker.State())
      && forall id :: id in completed ==> R.Closed(tracker.State(), id)
    }

    constructor (events: EventStore, tracker: T.AgentTaskTracker, printer: Printer)
      requires events.Counting() && T.WellFormed(tracker.State())
      ensures Valid() && this.events == events && this.tracker == tracker && this.printer == printer
      ensures completed == {}
    {
      this.events, this.tracker, this.printer := events, tracker, printer;
      completed := {};
    }

    /** A poll offers the first open tasks among the first 1000 events, and never a completed one. */
    method Poll(after: int, callId: Option<string>, limit: int, active: set<string>, clocks: Readings)
      returns (r: Result<seq<Event>>)
      requires Valid() && Monotonic(clocks)
      modifies tracker
      ensures Valid()
      ensures r.Ok? <==> 1 <= limit <= 1000
      ensures r.Ok? ==>
                && r.value == First(Offers(old(tracker.State()), clocks, active, callId,
                     First(Filter(Window(events.history, events.maxContextEvents), after, None), 1000)), limit)
                && forall e :: e in r.value ==> e.id !in completed
      ensures tracker.State() == old(tracker.State()) ||
              exists i :: tracker.State() == T.Expire(old(tracker.State()), clocks(i))
    {
      if limit < 1 {
        return Err("limit must be at least 1");
      }
      if limit > LIMIT_MAXIMUM {
        return Err("limit must be at most 1000");
      }
      ghost var t, last: nat := tracker.State(), 0;
      var all := events.ListEvents(after, None, SCAN_LIMIT);
      var pending: seq<Event> := [];
      for i := 0 to |all|
        invariant last <= i && (tracker.State() == t || tracker.State() == T.Expire(t, clocks(last)))
        invariant pending == Offers(t, clocks, active, callId, all[..i])
      {
        assert all[..i + 1][..i] == all[..i];
        assert clocks(last) <= clocks(i);
        var offer;
        offer, last := CheckOne(all[i], callId, active, clocks, last, i, t);
        if offer {
          pending := pending + [all[i]];
        }
      }
      assert all[..|all|] == all;
      OffersAreOpen(t, clocks, active, callId, all);
      var slice := if |pending| > limit then pending[..limit] else pending;
      assert forall e :: e in slice ==> e in pending;
      return Ok(slice);
    }

    method CheckOne(e: Event, callId: Option<string>, active: set<string>,
                    clocks: Readings, ghost last: nat, i: nat, ghost t: T.Tracker)
      returns (offer: bool, ghost last': nat)
      requires last <= i && clocks(last) <= clocks(i)
      requires tracker.State() == t || tracker.State() == T.Expire(t, clocks(last))
      modifies tracker
      ensures last' <= i && (tracker.State() == t || tracker.State() == T.Expire(t, clocks(last')))
      ensures offer == Offerable(t, clocks(i), active, callId, e)
    {
      last' := last;
      if e.kind != "agent_response_requested" {
        return false, last;
      }
      ghost var u, now := tracker.State(), clocks(i);
      ExpireTwice(t, clocks(last), T.EffectiveNow(None, now));
      assert T.IsPending(u, e.id, now) == T.IsPending(t, e.id, now);
      var open := tracker.IsPendingNow(e.id, None, clocks(i));
      offer, last' := open && e.callId in active && (callId.None? || e.callId == callId.value), i;
    }

    /** A claim is granted only on retained requests of active calls, and never on a completed task. */
    method Claim(ids: seq<int>, owner: string, ttl: real, active: set<string>, clock: real, ages: Ages, now: string)
      returns (claimed: seq<int>)
      requires Valid()
      modifies tracker, events
      ensures Valid()
      ensures var eligible := Eligible(Window(old(events.history), events.maxContextEvents), active, ids);
              && claimed == T.Grantable(old(tracker.State()), eligible, clock)
              && tracker.State() == T.Granted(old(tracker.State()), eligible, owner, ttl, clock)
      ensures forall id :: id in claimed ==> id !in completed
      ensures Books(events.history, events.nextId) ==
                Noted(old(Books(events.history, events.nextId)), events.maxContextEvents,
                      claimed, Note("agent_task_claimed", Some(owner), Some(ttl), ages), printer, now)
    {
      var eligible := EligibleIds(ids, active);
      ghost var t := tracker.State();
      claimed := tracker.Claim(eligible, owner, ttl, clock);
      T.GrantedOnce(t, eligible, clock);
      forall id | id in completed ensures R.Closed(tracker.State(), id) {
        R.LeasingKeepsClosed(t, J.Grab(eligible, owner, ttl), clock, id);
      }
      NoteAll(claimed, Note("agent_task_claimed", Some(owner), Some(ttl), ages), now);
    }

    method EligibleIds(ids: seq<int>, active: set<string>) returns (eligible: seq<int>)
      requires events.Valid()
      ensures eligible == Eligible(Window(events.history, events.maxContextEvents), active, ids)
    {
      eligible := [];
      for i := 0 to |ids|
        invariant eligible == Eligible(Window(events.history, events.maxContextEvents), active, ids[..i])
      {
        assert ids[..i + 1][..i] == ids[..i];
        var source := events.GetEvent(ids[i]);
        if source.Some? && source.value.kind == "agent_response_requested" && source.value.callId in active {
          eligible := eligible + [ids[i]];
        }
      }
      assert ids[..|ids|] == ids;
    }

    method Release(ids: seq<int>, owner: Option<string>, now: string) returns (released: seq<int>)
      requires Valid()
      modifies tracker, events
      ensures Valid()
      ensures released == T.Releasable(old(tracker.State()), ids, owner)
      ensures tracker.State() == T.Forget(old(tracker.State()), Elements(released))
      ensures Books(events.history, events.nextId) ==
                Noted(old(Books(events.history, events.nextId)), events.maxContextEvents,
                      released, Note("agent_task_released", owner, None, AGELESS), printer, now)
    {
      released := tracker.ReleaseMany(ids, owner);
      NoteAll(released, Note("agent_task_released", owner, None, AGELESS), now);
    }

    method Renew(ids: seq<int>, owner: string, ttl: real, clock: real, now: string) returns (renewed: seq<int>)
      requires Valid()
      modifies tracker, events
      ensures Valid()
      ensures renewed == T.Renewable(old(tracker.State()), ids, owner, clock)
      ensures tracker.State() == T.Renewed(old(tracker.State()), ids, owner, ttl, clock)
      ensures forall id :: id in renewed ==> id !in completed
      ensures Books(events.history, events.nextId) ==
                Noted(old(Books(events.history, events.nextId)), events.maxContextEvents,
                      renewed, Note("agent_task_renewed", Some(owner), Some(ttl), AGELESS), printer, now)
    {
      ghost var t := tracker.State();
      renewed := tracker.RenewMany(ids, owner, ttl, clock);
      T.RenewedByHolder(t, ids, owner, clock);
      forall id | id in completed ensures R.Closed(tracker.State(), id) {
        R.LeasingKeepsClosed(t, J.Renew(ids, owner, ttl), clock, id);
      }
      NoteAll(renewed, Note("agent_task_renewed", Some(owner), Some(ttl), AGELESS), now);
    }

    method NoteAll(ids: seq<int>, note: Note, now: string)
      requires events.Counting()
      modifies events
      ensures events.Counting()
      ensures Books(events.history, events.nextId) ==
                Noted(old(Books(events.history, events.nextId)), events.maxContextEvents, ids, note, printer, now)
    {
      for i := 0 to |ids|
        invariant events.Counting()
        invariant Books(events.history, events.nextId) ==
                    Noted(old(Books(events.history, events.nextId)), events.maxContextEvents,
                          ids[..i], note, printer, now)
      {
        assert ids[..i + 1][..i] == ids[..i];
        NoteSource(ids[i], note, now);
      }
      assert ids[..|ids|] == ids;
    }

    method Log(callId: string, kind: string, data: Data, now: string)
      requires events.Counting()
      modifies events
      ensures events.Counting()
      ensures Books(events.history, events.nextId) ==
                LogOne(old(Books(events.history, events.nextId)), callId, kind, data, now)
    {
      var _ := events.Append(callId, kind, now, data);
    }

    method NoteSource(id: int, note: Note, now: string)
      requires events.Counting()
      modifies events
      ensures events.Counting()
      ensures Books(events.history, events.nextId) ==
                NoteOne(old(Books(events.history, events.nextId)), events.maxContextEvents, id, note, printer, now)
    {
      var source := events.GetEvent(id);
      if source.Some? {
        var callId, age := source.value.callId, note.ages(source.value);
        Log(callId, note.kind, NoteData(id, note, printer), now);
        if note.kind == "agent_task_claimed" && age.Some? {
          Log(callId, "metrics", WaitData(id, note.owner, age.value, printer), now);
        }
      }
    }

    /**
     Submitting a response: an unknown call changes nothing; otherwise its task is
     completed exactly by a finalisation or a non-partial answer, whether or not
     its playback failed, and the outcome is noted.
     */
    method SubmitResponse(
      callId: string, active: set<string>, request: Submission, failure: Option<string>, now: string)
      returns (r: Result<bool>)
      requires Valid()
      modifies this, tracker, events
      ensures Valid()
      ensures r.Ok? <==> callId in active
      ensures r.Err? ==> tracker.State() == old(tracker.State())
      ensures r.Ok? ==> tracker.State() == Submitted(old(tracker.State()), [request])
      ensures r.Ok? ==> r.value == (request.finalizeOnly || failure.None?)
      ensures r.Ok? && (request.finalizeOnly || !request.partial) ==>
                tracker.State() == T.Marked(old(tracker.State()), request.responseTo)
      ensures r.Ok? && (request.finalizeOnly || !request.partial) && request.responseTo.Some? ==>
                R.Closed(tracker.State(), request.responseTo.value)
      ensures r.Ok? && request.partial && !request.finalizeOnly ==> tracker.State() == old(tracker.State())
      ensures var window, id := Window(old(events.history), events.maxContextEvents), old(events.nextId);
              var chunks := ChunkCount(window, callId, request.responseTo);
              var noted := if r.Err? then [] else Outcome(callId, request, chunks, failure, id, now);
              && events.history == old(events.history) + noted
              && events.nextId == old(events.nextId) + |noted|
      ensures completed == old(completed) +
                if r.Ok? && (request.finalizeOnly || !request.partial) && request.responseTo.Some?
                then {request.responseTo.value} else {}
    {
      if callId !in active {
        return Err("Active call not found");
      }
      ghost var t := tracker.State();
      assert [request][..0] == [];
      if request.finalizeOnly {
        Complete(request.responseTo);
        NoteFinal(callId, request, now);
        return Ok(true);
      }
      if !request.partial {
        Complete(request.responseTo);
      }
      if failure.Some? {
        Log(callId, "agent_response_dropped", FailureData(request, failure.value), now);
      }
      return Ok(failure.None?);
    }

    /** A finalisation logs how many chunks the answer had, if any, and itself. */
    method NoteFinal(callId: string, request: Submission, now: string)
      requires events.Counting() && request.finalizeOnly
      modifies events
      ensures events.Counting()
      ensures var window, id := Window(old(events.history), events.maxContextEvents), old(events.nextId);
              var chunks := ChunkCount(window, callId, request.responseTo);
              var noted := Outcome(callId, request, chunks, None, id, now);
              && events.history == old(events.history) + noted
              && events.nextId == old(events.nextId) + |noted|
    {
      ghost var before, id := events.history, events.nextId;
      var chunks := StreamChunkCount(callId, request.responseTo);
      if chunks > 0 {
        Log(callId, "metrics", CountData(request.responseTo, chunks), now);
        ConcatAssociates(before, [Event(id, callId, "metrics", now, CountData(request.responseTo, chunks))],
                         [Event(id + 1, callId, "agent_response_received", now, FinalData(request))]);
      }
      Log(callId, "agent_response_received", FinalData(request), now);
    }

    method StreamChunkCount(callId: string, responseTo: Option<int>) returns (n: nat)
      requires events.Valid()
      ensures n == ChunkCount(Window(events.history, events.maxContextEvents), callId, responseTo)
    {
      if responseTo.None? {
        return 0;
      }
      var all := events.ListEvents(0, Some(callId), SCAN_LIMIT);
      n := 0;
      for i := 0 to |all|
        invariant n == CountChunks(all[..i], responseTo.value)
      {
        assert all[..i + 1][..i] == all[..i];
        if IsChunk(all[i], responseTo.value) {
          n := n + 1;
        }
      }
      assert all[..|all|] == all;
    }

    method Complete(id: Option<int>)
      requires Valid()
      modifies this, tracker
      ensures Valid() && tracker.State() == T.Marked(old(tracker.State()), id)
      ensures completed == old(completed) + if id.Some? then {id.value} else {}
    {
      ghost var t := tracker.State();
      tracker.MarkResponded(id);
      if id.Some? {
        T.RecordWellFormed(t, id.value);
        completed := completed + {id.value};
        forall e | e in completed ensures R.Closed(tracker.State(), e) {
          if e != id.value {
            R.MarkKeepsClosed(t, id.value, e);
          }
        }
      }
    }
  }
}
