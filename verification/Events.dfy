/**
 The in-memory event store (voicebot/events.py): a bounded window over all
 events recorded, with an optional transcript that keeps everything per call.
 */
module Events {
  import opened Common

  /** What event data holds; of a fractional number also how it is printed. */
  datatype Value = Text(text: string) | Number(number: int) | Fraction(value: real, shown: string) | Flag(flag: bool)

  type Data = map<string, Value>

  datatype Event = Event(id: int, callId: string, kind: string, timestamp: string, data: Data)

  function Ids(events: seq<Event>): seq<int> {
    seq(|events|, i requires 0 <= i < |events| => events[i].id)
  }

  /**
   What stays in memory of a history.  A bound of zero keeps everything, because
   the slice `[-0:]` is the whole list.
   */
  function Window<T>(history: seq<T>, bound: nat): seq<T> {
    if bound == 0 || |history| <= bound then history else history[|history| - bound..]
  }

  /** Compacting after every event keeps the same window as cutting the history once. */
  lemma WindowStep<T>(history: seq<T>, next: T, bound: nat)
    ensures Window(Window(history, bound) + [next], bound) == Window(history + [next], bound)
  {
  }

  /** The window is the last min(n, bound) elements, unless the bound is zero and there are any. */
  lemma WindowIsSuffix<T>(history: seq<T>, bound: nat)
    ensures |Window(history, bound)| == Min(|history|, bound) <==> 1 <= bound || history == []
    ensures Window(history, bound) == history[|history| - Min(|history|, bound)..] <==> 1 <= bound || history == []
  {
  }

  lemma AppendIncreases(events: seq<Event>, next: Event)
    requires Increasing(Ids(events)) && forall i :: 0 <= i < |events| ==> events[i].id < next.id
    ensures Increasing(Ids(events + [next]))
  {
    assert Ids(events + [next]) == Ids(events) + [next.id];
  }

  predicate Wanted(e: Event, after: int, callId: Option<string>) {
    e.id > after && (callId.None? || e.callId == callId.value)
  }

  function Filter(events: seq<Event>, after: int, callId: Option<string>): seq<Event> {
    if events == [] then []
    else
      var front := Filter(events[..|events| - 1], after, callId);
      var last := events[|events| - 1];
      if Wanted(last, after, callId) then front + [last] else front
  }

  function First<T>(s: seq<T>, limit: nat): seq<T> {
    if |s| <= limit then s else s[..limit]
  }

  lemma {:induction false} FilterConcat(a: seq<Event>, b: seq<Event>, after: int, callId: Option<string>)
    ensures Filter(a + b, after, callId) == Filter(a, after, callId) + Filter(b, after, callId)
  {
    if b == [] {
      assert a + b == a;
    } else {
      assert (a + b)[..|a + b| - 1] == a + b[..|b| - 1];
      FilterConcat(a, b[..|b| - 1], after, callId);
    }
  }

  lemma {:induction false} FilterIsNoLonger(events: seq<Event>, after: int, callId: Option<string>)
    ensures |Filter(events, after, callId)| <= |events|
  {
    if events != [] {
      FilterIsNoLonger(events[..|events| - 1], after, callId);
    }
  }

  /** A wanted event is filtered out behind as many events as were wanted before it. */
  lemma FilterKeepsPlace(events: seq<Event>, p: nat, after: int, callId: Option<string>)
    requires p < |events| && Wanted(events[p], after, callId)
    ensures var n := |Filter(events[..p], after, callId)|;
            n < |Filter(events, after, callId)| && Filter(events, after, callId)[n] == events[p]
  {
    var front := Filter(events[..p], after, callId);
    assert events[..p + 1][..p] == events[..p];
    assert Filter(events[..p + 1], after, callId) == front + [events[p]];
    assert events == events[..p + 1] + events[p + 1..];
    FilterConcat(events[..p + 1], events[p + 1..], after, callId);
  }

  /** Every event that is kept stands somewhere in the list, behind as many wanted events. */
  lemma {:induction false} FilteredFrom(events: seq<Event>, i: nat, after: int, callId: Option<string>) returns (p: nat)
    requires i < |Filter(events, after, callId)|
    ensures p < |events| && Wanted(events[p], after, callId)
    ensures Filter(events, after, callId)[i] == events[p] && |Filter(events[..p], after, callId)| == i
  {
    var front := events[..|events| - 1];
    if i < |Filter(front, after, callId)| {
      p := FilteredFrom(front, i, after, callId);
      assert front[..p] == events[..p];
    } else {
      p := |front|;
    }
  }

  /** Filtering keeps exactly the wanted events, and ids that increase keep increasing. */
  lemma {:induction false} FilterIsSelection(events: seq<Event>, after: int, callId: Option<string>)
    ensures forall e :: e in Filter(events, after, callId) <==>
              e in events && e.id > after && (callId.Some? ==> e.callId == callId.value)
    ensures Increasing(Ids(events)) ==> Increasing(Ids(Filter(events, after, callId)))
  {
    if events != [] {
      var front, last := events[..|events| - 1], events[|events| - 1];
      FilterIsSelection(front, after, callId);
      assert events == front + [last];
      if Increasing(Ids(events)) {
        assert Ids(front) == Ids(events)[..|front|];
        forall e | e in front ensures e.id < last.id {
          var i :| 0 <= i < |front| && front[i] == e;
          assert Ids(events)[i] < Ids(events)[|front|];
        }
        var kept := Filter(front, after, callId);
        assert forall i :: 0 <= i < |kept| ==> kept[i] in front;
        AppendIncreases(kept, last);
      }
    }
  }

  /** Restricting a listing to one workspace, voicebot or session. */
  datatype Scope = Scope(workspace: Option<string>, voicebot: Option<string>, session: Option<string>)

  const EVERYWHERE := Scope(None, None, None)

  predicate Says(e: Event, field: string, value: string) {
    field in e.data && e.data[field] == Text(value)
  }

  /** An event that names no session belongs to the session of its call. */
  predicate MatchesScope(e: Event, scope: Scope) {
    && (scope.workspace.Some? ==> Says(e, "workspace_id", scope.workspace.value))
    && (scope.voicebot.Some? ==> Says(e, "voicebot_id", scope.voicebot.value))
    && (scope.session.Some? ==>
          if "session_id" in e.data then Says(e, "session_id", scope.session.value)
          else e.callId == scope.session.value)
  }

  function InScope(events: seq<Event>, scope: Scope): seq<Event> {
    if events == [] then []
    else
      var front, last := InScope(events[..|events| - 1], scope), events[|events| - 1];
      if MatchesScope(last, scope) then front + [last] else front
  }

  lemma {:induction false} EverythingIsInScope(events: seq<Event>)
    ensures InScope(events, EVERYWHERE) == events
  {
    if events != [] {
      EverythingIsInScope(events[..|events| - 1]);
    }
  }

  lemma {:induction false} InScopeIsSelection(events: seq<Event>, scope: Scope)
    ensures forall e :: e in InScope(events, scope) <==>
              && e in events
              && (scope.workspace.Some? ==>
                    "workspace_id" in e.data && e.data["workspace_id"] == Text(scope.workspace.value))
              && (scope.voicebot.Some? ==>
                    "voicebot_id" in e.data && e.data["voicebot_id"] == Text(scope.voicebot.value))
              && (scope.session.Some? && "session_id" in e.data ==>
                    e.data["session_id"] == Text(scope.session.value))
              && (scope.session.Some? && "session_id" !in e.data ==> e.callId == scope.session.value)
  {
    if events != [] {
      InScopeIsSelection(events[..|events| - 1], scope);
      assert events == events[..|events| - 1] + [events[|events| - 1]];
    }
  }

  /** The first event with an id. */
  function Find(events: seq<Event>, id: int): (found: Option<Event>)
    ensures found.Some? ==> found.value in events && found.value.id == id
    ensures found.None? ==> forall e :: e in events ==> e.id != id
  {
    if events == [] then None
    else if events[0].id == id then Some(events[0])
    else Find(events[1..], id)
  }

  /** The id a store continues with: one more than the largest it was given. */
  /** Of several events with one id the first is found. */
  lemma {:induction false} FoundFirst(events: seq<Event>, i: nat)
    requires i < |events| && forall j :: 0 <= j < i ==> events[j].id != events[i].id
    ensures Find(events, events[i].id) == Some(events[i])
  {
    if i > 0 {
      FoundFirst(events[1..], i - 1);
    }
  }

  function NextId(initial: seq<Event>): int {
    MaxOr(Ids(initial), 0) + 1
  }

  class EventStore {
    const maxContextEvents: nat
    var events: seq<Event>
    var nextId: int
    /** Every event recorded since the start, including the ones it started with. */
    ghost var history: seq<Event>

    ghost predicate Valid()
      reads this
    {
      events == Window(history, maxContextEvents)
    }

    /** The counter is ahead of every recorded id; a log-backed store does not use the counter. */
    ghost predicate Counting()
      reads this
    {
      Valid() && forall i :: 0 <= i < |history| ==> history[i].id < nextId
    }

    constructor (maxContextEvents: nat, initial: seq<Event>)
      requires forall e :: e in initial ==> e.id >= 1
      ensures Counting() && this.maxContextEvents == maxContextEvents
      ensures history == initial && nextId == NextId(initial)
      ensures initial == [] ==> nextId == 1
      ensures initial != [] ==>
                exists e :: e in initial && nextId == e.id + 1 && forall x :: x in initial ==> x.id <= e.id
    {
      this.maxContextEvents := maxContextEvents;
      this.history := initial;
      nextId := NextId(initial);
      events := initial;
      new;
      CompactLocked();
      MaxOrIsMax(Ids(initial), 0);
      assert forall i :: 0 <= i < |initial| ==> initial[i].id == Ids(initial)[i];
    }

    /** `next(self._event_ids)`: taken before, and outside, the lock. */
    method AllocateId() returns (id: int)
      requires Counting()
      modifies this`nextId
      ensures Counting() && id == old(nextId) && nextId == id + 1
    {
      id := nextId;
      nextId := nextId + 1;
    }

    method RecordEvent(event: Event)
      requires Valid()
      modifies this`events, this`history
      ensures Valid() && history == old(history) + [event]
    {
      WindowStep(history, event, maxContextEvents);
      events := events + [event];
      history := history + [event];
      CompactLocked();
    }

    method Append(callId: string, kind: string, timestamp: string, data: Data) returns (event: Event)
      requires Counting()
      modifies this
      ensures Counting()
      ensures event == Event(old(nextId), callId, kind, timestamp, data) && nextId == event.id + 1
      ensures history == old(history) + [event]
      ensures Increasing(Ids(old(history))) ==> Increasing(Ids(history))
    {
      var id := AllocateId();
      event := Event(id, callId, kind, timestamp, data);
      RecordEvent(event);
      if Increasing(Ids(old(history))) {
        AppendIncreases(old(history), event);
      }
    }

    method ListEvents(after: int, callId: Option<string>, limit: nat) returns (selected: seq<Event>)
      requires Valid()
      ensures selected == First(Filter(Window(history, maxContextEvents), after, callId), limit)
    {
      selected := ListScopedEvents(after, callId, limit, EVERYWHERE);
      EverythingIsInScope(Filter(Window(history, maxContextEvents), after, callId));
    }

    method ListScopedEvents(after: int, callId: Option<string>, limit: nat, scope: Scope) returns (selected: seq<Event>)
      requires Valid()
      ensures selected == First(InScope(Filter(Window(history, maxContextEvents), after, callId), scope), limit)
    {
      selected := [];
      for i := 0 to |events|
        invariant selected == InScope(Filter(events[..i], after, callId), scope)
      {
        assert events[..i + 1][..i] == events[..i];
        var e := events[i];
        if e.id > after && (callId.None? || e.callId == callId.value) {
          ghost var kept := Filter(events[..i], after, callId);
          assert (kept + [e])[..|kept|] == kept;
          if MatchesScope(e, scope) {
            selected := selected + [e];
          }
        }
      }
      assert events[..|events|] == events;
      if |selected| > limit {
        selected := selected[..limit];
      }
    }

    method GetEvent(eventId: int) returns (found: Option<Event>)
      requires Valid()
      ensures found == Find(Window(history, maxContextEvents), eventId)
    {
      for i := 0 to |events|
        invariant Find(events, eventId) == Find(events[i..], eventId)
      {
        if events[i].id == eventId {
          return Some(events[i]);
        }
        assert events[i..][1..] == events[i + 1..];
      }
      return None;
    }

    method CompactLocked()
      modifies this`events
      ensures events == Window(old(events), maxContextEvents)
    {
      if |events| <= maxContextEvents {
        return;
      }
      if maxContextEvents > 0 {
        events := events[|events| - maxContextEvents..];
      }
    }
  }
}
