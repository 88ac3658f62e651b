/**
 The registry of live sessions and the store of call states it keeps up to date
 (CallRegistry in voicebot/calls.py, CallStateStore in voicebot/call_state.py).
 */
module CallRegistry {
  import opened Common
  import opened Events
  import opened Strings

  class Session {
    var callId: string
    var details: Data
    var stopped: bool

    constructor (callId: string, details: Data)
      ensures this.callId == callId && this.details == details && !stopped
    {
      this.callId, this.details, stopped := callId, details, false;
    }
  }

  /** What is stored of a call: its last snapshot, and whether it is active or has ended. */
  datatype CallState = CallState(active: bool, details: Data)

  type States = map<string, CallState>

  predicate Active(states: States, id: string) {
    id in states && states[id].active
  }

  function Upserted(states: States, callId: string, details: Data): States {
    if Strip(callId) == "" then states else states[Strip(callId) := CallState(true, details)]
  }

  function Ended(states: States, callId: string): States {
    var id := Strip(callId);
    if id == "" || id !in states then states else states[id := states[id].(active := false)]
  }

  /** Call states by id; ids are stored stripped. */
  class CallStateStore {
    var states: States

    constructor ()
      ensures states == map[]
    {
      states := map[];
    }

    method Upsert(callId: string, details: Data) returns (ok: bool)
      modifies this
      ensures ok <==> !Blank(callId)
      ensures states == Upserted(old(states), callId, details)
      ensures states == if ok then old(states)[Strip(callId) := CallState(true, details)] else old(states)
    {
      StripDecides(callId);
      var id := Strip(callId);
      if id == "" {
        return false;
      }
      states := states[id := CallState(true, details)];
      return true;
    }

    /** Ending an unknown call is not an error; a blank id is. */
    method End(callId: string) returns (ok: bool)
      modifies this
      ensures ok <==> !Blank(callId)
      ensures states == Ended(old(states), callId)
      ensures states.Keys == old(states.Keys)
      ensures forall id :: id in states ==>
                && states[id].details == old(states)[id].details
                && states[id].active == (old(states)[id].active && !(ok && id == Strip(callId)))
    {
      StripDecides(callId);
      var id := Strip(callId);
      if id == "" {
        return false;
      }
      if id in states {
        states := states[id := states[id].(active := false)];
      }
      return true;
    }
  }

  // ------------------------------------------- when keys and active calls agree

  /** The active calls are exactly these keys. */
  ghost predicate Same(keys: set<string>, states: States) {
    forall id :: Active(states, id) <==> id in keys
  }

  /** The active calls are the registry's keys, all of them trimmed. */
  ghost predicate Matched(keys: set<string>, states: States) {
    Same(keys, states) && forall id :: id in keys ==> Trimmed(id)
  }

  lemma StripTrims(id: string)
    ensures Trimmed(id) <==> id == Strip(id) && id != ""
    ensures Strip(id) != "" ==> Trimmed(Strip(id))
  {
    StripDecides(id);
    StripErases(id);
  }

  /** Registering a call keeps the active calls the keys if and only if its id is trimmed. */
  lemma AddAgreesExactly(keys: set<string>, states: States, id: string, details: Data)
    requires Matched(keys, states)
    ensures Same(keys + {id}, Upserted(states, id, details)) <==> Trimmed(id)
    ensures Matched(keys + {id}, Upserted(states, id, details)) <==> Trimmed(id)
  {
    StripTrims(id);
    assert id in keys + {id};
    if !Trimmed(id) {
      assert !Active(Upserted(states, id, details), id);
    }
  }

  /** Removing a call keeps it unless the id is untrimmed and some live call bears the trimmed one. */
  lemma RemoveAgreesExactly(keys: set<string>, states: States, id: string)
    requires Matched(keys, states)
    ensures Same(keys - {id}, Ended(states, id)) <==> Trimmed(id) || Strip(id) !in keys
    ensures Matched(keys - {id}, Ended(states, id)) <==> Trimmed(id) || Strip(id) !in keys
  {
    StripTrims(id);
    if Strip(id) in keys && !Trimmed(id) {
      assert Strip(id) in keys - {id} && !Active(Ended(states, id), Strip(id));
    }
  }

  /** The store after `replace_id`, which gives up halfway if the old id is blank. */
  function Replaced(states: States, oldCallId: string, newCallId: string, details: Data): States {
    if oldCallId == newCallId then Upserted(states, newCallId, details)
    else if Strip(oldCallId) == "" then states
    else Upserted(Ended(states, oldCallId), newCallId, details)
  }

  /** The new id is stored as active, the old one ended with its snapshot, unless it is blank: then nothing happens. */
  lemma ReplacedExactly(states: States, oldCallId: string, newCallId: string, details: Data)
    ensures var after := Replaced(states, oldCallId, newCallId, details);
            && (oldCallId != newCallId && Blank(oldCallId) ==> after == states)
            && ((oldCallId == newCallId || !Blank(oldCallId)) && !Blank(newCallId) ==>
                  Strip(newCallId) in after && after[Strip(newCallId)] == CallState(true, details))
            && (forall id :: id in states && (id != Strip(newCallId) || Blank(newCallId)) ==>
                  && id in after && after[id].details == states[id].details
                  && (after[id].active <==>
                        states[id].active && (oldCallId == newCallId || Blank(oldCallId) || id != Strip(oldCallId))))
            && (forall id :: id in after ==> id in states || id == Strip(newCallId))
  {
    StripDecides(oldCallId);
    StripDecides(newCallId);
  }

  /** Replacing an id by another keeps the agreement exactly under this condition on the two ids. */
  predicate CleanlyReplaced(keys: set<string>, oldCallId: string, newCallId: string) {
    if oldCallId != newCallId && Strip(oldCallId) == "" then newCallId in keys
    else
      && newCallId != "" && newCallId == Strip(newCallId)
      && (oldCallId == Strip(oldCallId) || Strip(oldCallId) !in keys || Strip(oldCallId) == newCallId)
  }

  lemma ReplaceAgreesExactly(keys: set<string>, states: States, oldCallId: string, newCallId: string, details: Data)
    requires Matched(keys, states)
    ensures Same(keys - {oldCallId} + {newCallId}, Replaced(states, oldCallId, newCallId, details)) <==>
            CleanlyReplaced(keys, oldCallId, newCallId)
    ensures Matched(keys - {oldCallId} + {newCallId}, Replaced(states, oldCallId, newCallId, details)) <==>
            CleanlyReplaced(keys, oldCallId, newCallId)
  {
    StripTrims(oldCallId);
    StripTrims(newCallId);
    var keys', states' := keys - {oldCallId} + {newCallId}, Replaced(states, oldCallId, newCallId, details);
    assert newCallId in keys';
    if !Trimmed(newCallId) && newCallId !in keys {
      assert !Active(states', newCallId);
    }
    if oldCallId != newCallId && Strip(oldCallId) != "" && oldCallId != Strip(oldCallId) && Strip(oldCallId) in keys &&
       Strip(oldCallId) != newCallId && Trimmed(newCallId)
    {
      assert Strip(oldCallId) in keys' && !Active(states', Strip(oldCallId));
    }
  }

  // ------------------------------------------------------------------ registry

  class Registry {
    var calls: map<string, Session>
    const store: CallStateStore

    /** Keys and active calls agree, and each key maps to a session bearing it. */
    ghost predicate Agrees()
      reads this, store, calls.Values
    {
      && Matched(calls.Keys, store.states)
      && forall id :: id in calls ==> calls[id].callId == id
    }

    constructor ()
      ensures Agrees() && calls == map[] && fresh(store)
    {
      calls := map[];
      store := new CallStateStore();
    }

    /** The call is registered even where the store then refuses its blank id. */
    method Add(session: Session) returns (ok: bool)
      modifies this, store
      ensures ok <==> !Blank(session.callId)
      ensures calls == old(calls)[session.callId := session]
      ensures store.states == Upserted(old(store.states), session.callId, session.details)
      ensures old(Agrees()) ==> (Agrees() <==> Trimmed(session.callId))
    {
      ghost var keys := calls.Keys;
      calls := calls[session.callId := session];
      ok := store.Upsert(session.callId, session.details);
      assert calls.Keys == keys + {session.callId};
      if old(Agrees()) {
        AddAgreesExactly(keys, old(store.states), session.callId, session.details);
      }
    }

    /** `replace_id`: called when a session has just taken its new id. */
    method ReplaceId(oldCallId: string, session: Session) returns (ok: bool)
      modifies this, store
      ensures calls == (old(calls) - {oldCallId})[session.callId := session]
      ensures store.states == Replaced(old(store.states), oldCallId, session.callId, session.details)
      ensures ok <==> !Blank(session.callId) && (oldCallId == session.callId || !Blank(oldCallId))
    {
      StripDecides(oldCallId);
      calls := calls - {oldCallId};
      calls := calls[session.callId := session];
      if oldCallId != session.callId {
        ok := store.End(oldCallId);
        if !ok {
          return false;
        }
      }
      ok := store.Upsert(session.callId, session.details);
    }

    /** A session learns its real id and tells the registry (the UUID message of the receive loop). */
    method Rename(session: Session, newCallId: string) returns (ok: bool)
      modifies this, store, session
      ensures session.callId == newCallId
      ensures calls == (old(calls) - {old(session.callId)})[newCallId := session]
      ensures store.states == Replaced(old(store.states), old(session.callId), newCallId, old(session.details))
      ensures old(Agrees()) ==> (Agrees() <==> CleanlyReplaced(old(calls.Keys), old(session.callId), newCallId))
    {
      ghost var keys := calls.Keys;
      var oldCallId := session.callId;
      session.callId := newCallId;
      ok := ReplaceId(oldCallId, session);
      assert calls.Keys == keys - {oldCallId} + {newCallId};
      if old(Agrees()) {
        ReplaceAgreesExactly(keys, old(store.states), oldCallId, newCallId, session.details);
      }
    }

    method Remove(callId: string) returns (ok: bool)
      modifies this, store
      ensures ok <==> !Blank(callId)
      ensures calls == old(calls) - {callId} && store.states == Ended(old(store.states), callId)
      ensures old(Agrees()) ==> (Agrees() <==> Trimmed(callId) || Strip(callId) !in old(calls))
    {
      ghost var keys := calls.Keys;
      calls := calls - {callId};
      ok := store.End(callId);
      assert calls.Keys == keys - {callId};
      if old(Agrees()) {
        RemoveAgreesExactly(keys, old(store.states), callId);
      }
    }

    method Stop(callId: string) returns (found: bool)
      requires Agrees()
      modifies this, store, calls.Values
      ensures Agrees() && calls == old(calls) - {callId} && found == (callId in old(calls))
      ensures store.states == if found then Ended(old(store.states), callId) else old(store.states)
      ensures found ==> old(calls)[callId].stopped
      ensures forall id :: id in old(calls) && id != callId ==> old(calls)[id].stopped == old(calls[id].stopped)
    {
      if callId !in calls {
        return false;
      }
      ghost var keys := calls.Keys;
      var session := calls[callId];
      calls := calls - {callId};
      session.stopped := true;
      var _ := store.End(callId);
      assert calls.Keys == keys - {callId};
      RemoveAgreesExactly(keys, old(store.states), callId);
      return true;
    }

    /** A live call's snapshot is also stored. */
    method Snapshot(callId: string) returns (found: Option<Data>)
      requires Agrees()
      modifies store
      ensures Agrees() && (found.Some? <==> callId in calls)
      ensures found.Some? ==>
                found.value == calls[callId].details && store.states[callId] == CallState(true, found.value)
      ensures store.states ==
                if found.Some? then old(store.states)[callId := CallState(true, found.value)] else old(store.states)
    {
      if callId !in calls {
        return None;
      }
      StripTrims(callId);
      ghost var keys := calls.Keys;
      AddAgreesExactly(keys, store.states, callId, calls[callId].details);
      var _ := store.Upsert(calls[callId].callId, calls[callId].details);
      assert keys + {callId} == keys;
      return Some(calls[callId].details);
    }
  }
}
