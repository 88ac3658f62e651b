/**
 Reads of a call's events while other threads record more.  The transcript is
 read first, and memory later and under another lock (durable_call_events in
 voicebot/api.py), so the two may be of different times.
 */
module LateReads {
  import opened Common
  import opened Events
  import opened EventLog
  import opened DurableEvents

  /** A limit with room for everything. */
  function LateRoom(alnum: Alnum, earlier: seq<Event>, history: seq<Event>, callId: string, after: int): nat {
    |Sorted(alnum, earlier, callId, after)| + |history|
  }

  lemma SuffixDistinct(history: seq<Event>, from: nat)
    requires DistinctIds(history) && from <= |history|
    ensures DistinctIds(history[from..])
  {
    forall i, j | 0 <= i < j < |history[from..]| ensures Differ(history[from..], i, j) {
      IdsDiffer(history, from + i, from + j);
    }
  }

  lemma PrefixDistinct(earlier: seq<Event>, history: seq<Event>)
    requires DistinctIds(history) && earlier <= history
    ensures DistinctIds(earlier)
  {
    forall i, j | 0 <= i < j < |earlier| ensures Differ(earlier, i, j) {
      IdsDiffer(history, i, j);
    }
  }

  /** What memory adds to the transcript. */
  function Kept(history: seq<Event>, bound: nat, callId: string, after: int): seq<Event> {
    Filter(Window(history, bound), after, Some(callId))
  }

  lemma KeptExactly(history: seq<Event>, bound: nat, callId: string, after: int)
    requires DistinctIds(history)
    ensures DistinctIds(Kept(history, bound, callId, after)) && |Kept(history, bound, callId, after)| <= |history|
    ensures forall e :: e in Kept(history, bound, callId, after) <==>
              e in Window(history, bound) && e in history && IsOwn(e, callId) && e.id > after
  {
    var w := Window(history, bound);
    assert w == history[|history| - |w|..];
    SuffixDistinct(history, |history| - |w|);
    FilterDistinct(w, after, Some(callId));
    FilterIsSelection(w, after, Some(callId));
    FilterIsNoLonger(w, after, Some(callId));
  }

  /** With room for everything, a read is the merge of the transcript's past and memory's present. */
  lemma WholeLateRead(
    alnum: Alnum, earlier: seq<Event>, history: seq<Event>, bound: nat, callId: string, after: int, limit: nat)
    requires DistinctIds(earlier) && DistinctIds(history) && LateRoom(alnum, earlier, history, callId, after) <= limit
    ensures LateRead(alnum, earlier, history, bound, callId, after, limit) ==
            UpsertAll(Sorted(alnum, earlier, callId, after), Kept(history, bound, callId, after))
  {
    var kept := Kept(history, bound, callId, after);
    LateReadMerges(alnum, earlier, history, bound, callId, after, limit);
    KeptExactly(history, bound, callId, after);
    FirstMembers(kept, limit);
    SortedExactly(alnum, earlier, callId, after);
    UpsertAllFrom(Sorted(alnum, earlier, callId, after), kept);
    FirstMembers(UpsertAll(Sorted(alnum, earlier, callId, after), kept), limit);
  }

  /** The merge holds an event of the call exactly if the transcript restores it or memory retains it. */
  lemma MergeHoldsExactly(
    alnum: Alnum, earlier: seq<Event>, history: seq<Event>, bound: nat, callId: string, after: int, e: Event)
    requires earlier <= history && DistinctIds(history) && callId != "system"
    requires e in history && IsOwn(e, callId) && e.id > after
    ensures e in UpsertAll(Sorted(alnum, earlier, callId, after), Kept(history, bound, callId, after)) <==>
            (e in earlier && Restores(e)) || e in Window(history, bound)
  {
    var sorted, kept := Sorted(alnum, earlier, callId, after), Kept(history, bound, callId, after);
    PrefixDistinct(earlier, history);
    KeptExactly(history, bound, callId, after);
    SortedExactly(alnum, earlier, callId, after);
    UpsertAllFrom(sorted, kept);
    UpsertAllHas(sorted, kept);
    if e in earlier {
      OwnSorted(alnum, earlier, callId, after, e);
    } else if e in sorted {
      RestoredUnderOwnId(alnum, earlier, callId, after, e);
      var x :| x in earlier && x.id == e.id;
      DifferentIds(history, x, e);
    }
    if e in sorted && e !in kept {
      forall x | x in kept ensures x.id != e.id {
        DifferentIds(history, x, e);
      }
      UpsertAllKeeps(sorted, kept, e);
    }
  }

  lemma RestoredUnderOwnId(alnum: Alnum, earlier: seq<Event>, callId: string, after: int, x: Event)
    requires DistinctIds(earlier) && x in Sorted(alnum, earlier, callId, after)
    ensures exists e :: e in earlier && e.id == x.id && RestoredFrom(alnum, e, x, callId, after)
  {
    SortedExactly(alnum, earlier, callId, after);
    RestoredMembers(alnum, earlier, callId, after);
    var i :| 0 <= i < |earlier| && RestoredFrom(alnum, earlier[i], x, callId, after);
    assert earlier[i] in earlier;
  }

  /**
   Of the call's events after the cursor, a read with room for everything returns
   exactly those that were in the transcript and read back from it, and those still
   in memory later on: an event recorded and compacted between the two steps is missed.
   */
  lemma LateReadExactly(
    alnum: Alnum, earlier: seq<Event>, history: seq<Event>, bound: nat, callId: string, after: int, limit: nat,
    e: Event)
    requires earlier <= history && DistinctIds(history) && callId != "system"
    requires e in history && IsOwn(e, callId) && e.id > after
    requires LateRoom(alnum, earlier, history, callId, after) <= limit
    ensures e in LateRead(alnum, earlier, history, bound, callId, after, limit) <==>
            (e in earlier && Restores(e)) || e in Window(history, bound)
  {
    PrefixDistinct(earlier, history);
    WholeLateRead(alnum, earlier, history, bound, callId, after, limit);
    MergeHoldsExactly(alnum, earlier, history, bound, callId, after, e);
  }

  // ---------------------------------------------------- reads at every limit

  lemma InOrderDiffers(events: seq<Event>)
    requires InOrder(events)
    ensures DistinctIds(events)
  {
    forall i, j | 0 <= i < j < |events| ensures Differ(events, i, j) {
    }
  }

  lemma {:induction false} FilterInOrder(events: seq<Event>, after: int, callId: Option<string>)
    requires InOrder(events)
    ensures InOrder(Filter(events, after, callId))
  {
    if events != [] {
      var front, last := events[..|events| - 1], events[|events| - 1];
      FilterInOrder(front, after, callId);
      FilterIsSelection(front, after, callId);
      var kept := Filter(front, after, callId);
      forall i | 0 <= i < |kept| ensures kept[i].id < last.id {
        assert kept[i] in kept;
      }
    }
  }

  /** Lists in id order with the same members are the same list. */
  lemma {:induction false} OneInOrder(a: seq<Event>, b: seq<Event>)
    requires InOrder(a) && InOrder(b) && forall e :: e in a <==> e in b
    ensures a == b
  {
    if a == [] {
      InOrderDiffers(b);
      SubsetIsShorter(b, a);
    } else {
      SameHead(a, b);
      TailMembers(a);
      TailMembers(b);
      OneInOrder(a[1..], b[1..]);
      assert a == [a[0]] + a[1..] && b == [b[0]] + b[1..];
    }
  }

  lemma TailMembers(a: seq<Event>)
    requires InOrder(a) && a != []
    ensures forall e :: e in a[1..] <==> e in a && e != a[0]
  {
    forall e | e in a[1..] ensures e in a && e != a[0] {
      var i :| 0 <= i < |a[1..]| && a[1..][i] == e;
      assert a[i + 1] == e;
    }
  }

  lemma SameHead(a: seq<Event>, b: seq<Event>)
    requires InOrder(a) && InOrder(b) && a != [] && forall e :: e in a <==> e in b
    ensures b != [] && a[0] == b[0]
  {
    assert a[0] in b && b[0] in a;
    var i :| 0 <= i < |b| && b[i] == a[0];
    var j :| 0 <= j < |a| && a[j] == b[0];
  }

  /** Memory that is in id order may be cut at the limit before it is merged. */
  lemma CutMergesAlike(sorted: seq<Event>, kept: seq<Event>, limit: nat)
    requires InOrder(sorted) && InOrder(kept)
    ensures First(UpsertAll(sorted, First(kept, limit)), limit) == First(UpsertAll(sorted, kept), limit)
  {
    if |kept| > limit > 0 {
      CutIsBeyond(sorted, kept, limit);
      FirstIsPrefix(UpsertAll(sorted, kept), limit);
      FirstIsPrefix(UpsertAll(sorted, kept[..limit]), limit);
    }
  }

  /** Every event of the call either is in the transcript, and reads back from it, or is still in memory. */
  ghost predicate Covered(earlier: seq<Event>, history: seq<Event>, bound: nat, callId: string) {
    forall e :: e in history && IsOwn(e, callId) ==> (e in earlier && Restores(e)) || e in Window(history, bound)
  }

  /** The read returns the first of the call's own events after the cursor. */
  ghost predicate LateReadsOwn(
    alnum: Alnum, earlier: seq<Event>, history: seq<Event>, bound: nat, callId: string, after: int, limit: nat)
  {
    LateRead(alnum, earlier, history, bound, callId, after, limit) == First(Filter(history, after, Some(callId)), limit)
  }

  lemma CoveredMerge(
    alnum: Alnum, earlier: seq<Event>, history: seq<Event>, bound: nat, callId: string, after: int, x: Event)
    requires earlier <= history && DistinctIds(history) && callId != "system"
    requires Covered(earlier, history, bound, callId) && FileOfItsOwn(alnum, earlier, callId)
    ensures x in UpsertAll(Sorted(alnum, earlier, callId, after), Kept(history, bound, callId, after)) <==>
            x in history && IsOwn(x, callId) && x.id > after
  {
    var sorted, kept := Sorted(alnum, earlier, callId, after), Kept(history, bound, callId, after);
    PrefixDistinct(earlier, history);
    KeptExactly(history, bound, callId, after);
    SortedExactly(alnum, earlier, callId, after);
    UpsertAllFrom(sorted, kept);
    if x in history && IsOwn(x, callId) && x.id > after {
      MergeHoldsExactly(alnum, earlier, history, bound, callId, after, x);
    } else if x in UpsertAll(sorted, kept) {
      RestoredUnderOwnId(alnum, earlier, callId, after, x);
      var e :| e in earlier && e.id == x.id && RestoredFrom(alnum, e, x, callId, after);
      assert IsOwn(e, callId) && e in history;
      MergeHoldsExactly(alnum, earlier, history, bound, callId, after, e);
      OneOfEachId(UpsertAll(sorted, kept), e, x);
    }
  }

  lemma OneOfEachId(sorted: seq<Event>, a: Event, b: Event)
    requires InOrder(sorted) && a in sorted && b in sorted && a.id == b.id
    ensures a == b
  {
    InOrderDiffers(sorted);
    if a != b {
      DifferentIds(sorted, a, b);
    }
  }

  lemma CoveredReadsOwn(
    alnum: Alnum, earlier: seq<Event>, history: seq<Event>, bound: nat, callId: string, after: int, limit: nat)
    requires earlier <= history && InOrder(history) && callId != "system"
    requires Covered(earlier, history, bound, callId) && FileOfItsOwn(alnum, earlier, callId)
    ensures LateReadsOwn(alnum, earlier, history, bound, callId, after, limit)
  {
    var sorted, kept := Sorted(alnum, earlier, callId, after), Kept(history, bound, callId, after);
    InOrderDiffers(history);
    PrefixDistinct(earlier, history);
    SortedExactly(alnum, earlier, callId, after);
    LateReadMerges(alnum, earlier, history, bound, callId, after, limit);
    FilterInOrder(Window(history, bound), after, Some(callId));
    CutMergesAlike(sorted, kept, limit);
    UpsertAllInOrder(sorted, kept);
    FilterInOrder(history, after, Some(callId));
    FilterIsSelection(history, after, Some(callId));
    forall x ensures x in UpsertAll(sorted, kept) <==> x in Filter(history, after, Some(callId)) {
      CoveredMerge(alnum, earlier, history, bound, callId, after, x);
    }
    OneInOrder(UpsertAll(sorted, kept), Filter(history, after, Some(callId)));
  }

  lemma UncoveredIsMissed(
    alnum: Alnum, earlier: seq<Event>, history: seq<Event>, bound: nat, callId: string, e: Event)
    requires earlier <= history && DistinctIds(history) && callId != "system" && e in history && IsOwn(e, callId)
    requires !((e in earlier && Restores(e)) || e in Window(history, bound))
    ensures !LateReadsOwn(alnum, earlier, history, bound, callId, e.id - 1,
                          LateRoom(alnum, earlier, history, callId, e.id - 1))
  {
    var limit := LateRoom(alnum, earlier, history, callId, e.id - 1);
    LateReadExactly(alnum, earlier, history, bound, callId, e.id - 1, limit, e);
    FilterIsSelection(history, e.id - 1, Some(callId));
    FilterIsNoLonger(history, e.id - 1, Some(callId));
    FirstMembers(Filter(history, e.id - 1, Some(callId)), limit);
  }

  lemma ForeignIsReadLate(
    alnum: Alnum, earlier: seq<Event>, history: seq<Event>, bound: nat, callId: string, e: Event)
    requires earlier <= history && DistinctIds(history)
    requires e in earlier && Transcribed(alnum, e, callId) && !IsOwn(e, callId) && FromDict(ToDict(e)).Some?
    ensures !LateReadsOwn(alnum, earlier, history, bound, callId, e.id - 1,
                          LateRoom(alnum, earlier, history, callId, e.id - 1))
  {
    var after, x := e.id - 1, FromDict(ToDict(e)).value;
    var limit := LateRoom(alnum, earlier, history, callId, after);
    var kept := Kept(history, bound, callId, after);
    PrefixDistinct(earlier, history);
    WholeLateRead(alnum, earlier, history, bound, callId, after, limit);
    SortedExactly(alnum, earlier, callId, after);
    RestoredMembers(alnum, earlier, callId, after);
    KeptExactly(history, bound, callId, after);
    assert e in history;
    forall o | o in kept ensures o.id != x.id {
      DifferentIds(history, o, e);
    }
    UpsertAllKeeps(Sorted(alnum, earlier, callId, after), kept, x);
    FilterIsSelection(history, after, Some(callId));
    FirstMembers(Filter(history, after, Some(callId)), limit);
    if x in history && x != e {
      DifferentIds(history, x, e);
    }
  }

  /**
   With ids in order, every read in two steps returns exactly the first of the
   call's own events after its cursor, if and only if no event of the call was
   recorded and compacted between the steps, those in the transcript read back or
   are still in memory, and nothing another call put into the file reads back.
   */
  lemma LateReadsOwnExactly(
    alnum: Alnum, earlier: seq<Event>, history: seq<Event>, bound: nat, callId: string)
    requires earlier <= history && InOrder(history) && callId != "system"
    ensures (forall after, limit :: LateReadsOwn(alnum, earlier, history, bound, callId, after, limit)) <==>
            Covered(earlier, history, bound, callId) && FileOfItsOwn(alnum, earlier, callId)
  {
    InOrderDiffers(history);
    if Covered(earlier, history, bound, callId) && FileOfItsOwn(alnum, earlier, callId) {
      forall after, limit ensures LateReadsOwn(alnum, earlier, history, bound, callId, after, limit) {
        CoveredReadsOwn(alnum, earlier, history, bound, callId, after, limit);
      }
    }
    if !Covered(earlier, history, bound, callId) {
      var e :| e in history && IsOwn(e, callId) && !((e in earlier && Restores(e)) || e in Window(history, bound));
      UncoveredIsMissed(alnum, earlier, history, bound, callId, e);
    }
    if !FileOfItsOwn(alnum, earlier, callId) {
      var e :| e in earlier && Transcribed(alnum, e, callId) && !IsOwn(e, callId) && FromDict(ToDict(e)).Some?;
      ForeignIsReadLate(alnum, earlier, history, bound, callId, e);
    }
  }

  /** Two events are recorded between the steps and one fits in memory: only the later one is returned. */
  lemma EventBetweenStepsIsMissed(alnum: Alnum, callId: string, kind: string, timestamp: string, data: Data)
    requires callId != "system"
    ensures var first, second := Event(1, callId, kind, timestamp, data), Event(2, callId, kind, timestamp, data);
            var room := LateRoom(alnum, [], [first, second], callId, 0);
            LateRead(alnum, [], [first, second], 1, callId, 0, room) == [second]
  {
    var first, second := Event(1, callId, kind, timestamp, data), Event(2, callId, kind, timestamp, data);
    var history := [first, second];
    var limit := LateRoom(alnum, [], history, callId, 0);
    InOrderDiffers(history);
    WholeLateRead(alnum, [], history, 1, callId, 0, limit);
    assert Window(history, 1) == [second] && [second][..0] == [];
    assert Filter([second], 0, Some(callId)) == [second];
    assert Sorted(alnum, [], callId, 0) == [];
  }
}
