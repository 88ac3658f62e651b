/**
 Reading the events of one call (durable_call_events in voicebot/api.py).

 The store keeps only a window in memory, but writes every event of a call to a
 transcript as well.  A read merges the transcript with the window, memory
 winning, sorts by id and truncates.
 */
module DurableEvents {
  import opened Common
  import opened Strings
  import opened Events
  import opened EventLog

  // ------------------------------------------------------------- transcripts

  /** Which characters are letters or digits, in whatever script. */
  type Alnum = char -> bool

  /** Transcript files are named after the call, with unusual characters replaced. */
  function SafeName(alnum: Alnum, callId: string): string {
    seq(|callId|, i requires 0 <= i < |callId| =>
      if alnum(callId[i]) || callId[i] == '-' || callId[i] == '_' then callId[i] else '_')
  }

  function RawId(raw: RawEvent): int {
    match raw.id
    case None => 0
    case Some(id) => id
  }

  function RawAfter(lines: seq<RawEvent>, after: int): seq<RawEvent> {
    if lines == [] then []
    else
      var front, last := RawAfter(lines[..|lines| - 1], after), lines[|lines| - 1];
      if RawId(last) > after then front + [last] else front
  }

  /** Read are exactly the lines with an id after the cursor; no id counts as zero. */
  lemma {:induction false} RawAfterExactly(lines: seq<RawEvent>, after: int)
    ensures forall raw :: raw in RawAfter(lines, after) <==>
              raw in lines && (raw.id.Some? ==> raw.id.value > after) && (raw.id.None? ==> after < 0)
  {
    if lines != [] {
      RawAfterExactly(lines[..|lines| - 1], after);
      assert lines == lines[..|lines| - 1] + [lines[|lines| - 1]];
    }
  }

  /** Does the transcript file of `callId` hold this event? */
  predicate Transcribed(alnum: Alnum, e: Event, callId: string) {
    e.callId != "system" && SafeName(alnum, e.callId) == SafeName(alnum, callId)
  }

  /** The lines a history leaves in the transcript file of a call. */
  function TranscriptOf(alnum: Alnum, history: seq<Event>, callId: string): seq<RawEvent> {
    if history == [] then []
    else
      var front, last := TranscriptOf(alnum, history[..|history| - 1], callId), history[|history| - 1];
      if Transcribed(alnum, last, callId) then front + [ToDict(last)] else front
  }

  /** Underscores, and whatever a file name does not keep. */
  predicate Replaced(alnum: Alnum, c: char) {
    c == '_' || (!alnum(c) && c != '-')
  }

  /** Two call ids share a file exactly if they differ only where both have an underscore or an unusual character. */
  lemma SharedFileExactly(alnum: Alnum, a: string, b: string)
    ensures SafeName(alnum, a) == SafeName(alnum, b) <==>
            |a| == |b| &&
            forall i :: 0 <= i < |a| ==> a[i] == b[i] || (Replaced(alnum, a[i]) && Replaced(alnum, b[i]))
  {
    if SafeName(alnum, a) == SafeName(alnum, b) {
      assert |a| == |SafeName(alnum, a)| == |b|;
      forall i | 0 <= i < |a| ensures a[i] == b[i] || (Replaced(alnum, a[i]) && Replaced(alnum, b[i])) {
        assert SafeName(alnum, a)[i] == SafeName(alnum, b)[i];
      }
    }
  }

  /** An id of letters, digits, dashes and underscores. */
  predicate Plain(alnum: Alnum, id: string) {
    forall i :: 0 <= i < |id| ==> alnum(id[i]) || id[i] == '-' || id[i] == '_'
  }

  lemma PlainIdsAreApart(alnum: Alnum, a: string, b: string)
    requires Plain(alnum, a) && Plain(alnum, b)
    ensures SafeName(alnum, a) == SafeName(alnum, b) <==> a == b
  {
    SharedFileExactly(alnum, a, b);
  }

  class TranscriptStore {
    const alnum: Alnum
    var files: map<string, seq<RawEvent>>

    function File(callId: string): seq<RawEvent>
      reads this
    {
      if SafeName(alnum, callId) in files then files[SafeName(alnum, callId)] else []
    }

    constructor (alnum: Alnum)
      ensures this.alnum == alnum && files == map[]
    {
      this.alnum, files := alnum, map[];
    }

    method Append(event: Event)
      modifies this
      ensures forall callId :: File(callId) ==
                old(File(callId)) + if Transcribed(alnum, event, callId) then [ToDict(event)] else []
    {
      if event.callId == "system" {
        return;
      }
      files := files[SafeName(alnum, event.callId) := File(event.callId) + [ToDict(event)]];
    }

    method Read(callId: string, after: int) returns (lines: seq<RawEvent>)
      ensures lines == RawAfter(File(callId), after)
    {
      var all := File(callId);
      lines := [];
      for i := 0 to |all|
        invariant lines == RawAfter(all[..i], after)
      {
        assert all[..i + 1][..i] == all[..i];
        if RawId(all[i]) > after {
          lines := lines + [all[i]];
        }
      }
      assert all[..|all|] == all;
    }
  }

  ghost predicate AllTranscribed(store: EventStore, transcripts: TranscriptStore)
    reads store, transcripts
  {
    forall callId :: transcripts.File(callId) == TranscriptOf(transcripts.alnum, store.history, callId)
  }

  /** Recording an event writes it to its call's transcript before the window is cut. */
  method RecordAndTranscribe(store: EventStore, transcripts: TranscriptStore, event: Event)
    requires store.Valid() && AllTranscribed(store, transcripts)
    modifies store, transcripts
    ensures store.Valid() && store.history == old(store.history) + [event]
    ensures AllTranscribed(store, transcripts)
  {
    transcripts.Append(event);
    store.RecordEvent(event);
    ghost var before := old(store.history);
    assert store.history[..|before|] == before;
  }

  // ---------------------------------------------------- the merged dictionary

  /** Assigning to a dictionary: a known key keeps its place, a new one goes last. */
  function Put(m: seq<Event>, e: Event): seq<Event> {
    if m == [] then [e]
    else if m[|m| - 1].id == e.id then m[..|m| - 1] + [e]
    else Put(m[..|m| - 1], e) + [m[|m| - 1]]
  }

  /** Is `id` a key? */
  predicate Known(m: seq<Event>, id: int) {
    exists i :: 0 <= i < |m| && m[i].id == id
  }

  function PutOrAppend(m: seq<Event>, e: Event): seq<Event> {
    if Known(m, e.id) then Put(m, e) else m + [e]
  }

  function PutAll(m: seq<Event>, events: seq<Event>): seq<Event> {
    if events == [] then m else PutOrAppend(PutAll(m, events[..|events| - 1]), events[|events| - 1])
  }

  // ------------------------------------------------------------ sorting by id

  /** Insert into a list in id order, replacing an event with the same id. */
  function Upsert(sorted: seq<Event>, e: Event): seq<Event> {
    if sorted == [] then [e]
    else if e.id < sorted[0].id then [e] + sorted
    else if e.id == sorted[0].id then [e] + sorted[1..]
    else [sorted[0]] + Upsert(sorted[1..], e)
  }

  function UpsertAll(sorted: seq<Event>, events: seq<Event>): seq<Event> {
    if events == [] then sorted else Upsert(UpsertAll(sorted, events[..|events| - 1]), events[|events| - 1])
  }

  ghost predicate InOrder(events: seq<Event>) {
    forall i, j :: 0 <= i < j < |events| ==> events[i].id < events[j].id
  }

  lemma InOrderPrefix(events: seq<Event>, n: nat)
    requires InOrder(events) && n <= |events|
    ensures InOrder(events[..n])
  {
  }

  lemma HeadInOrder(sorted: seq<Event>, rest: seq<Event>, e: Event)
    requires InOrder(sorted) && InOrder(rest) && sorted != [] && e.id > sorted[0].id
    requires forall x :: x in rest ==> x == e || x in sorted[1..]
    ensures InOrder([sorted[0]] + rest)
  {
    forall i | 0 <= i < |rest| ensures sorted[0].id < rest[i].id {
      assert rest[i] in rest;
    }
  }

  lemma {:induction false} UpsertInOrder(sorted: seq<Event>, e: Event)
    requires InOrder(sorted)
    ensures InOrder(Upsert(sorted, e))
    ensures forall x :: x in Upsert(sorted, e) ==> x == e || x in sorted
    ensures e in Upsert(sorted, e) && forall x :: x in sorted && x.id != e.id ==> x in Upsert(sorted, e)
  {
    if sorted != [] && e.id > sorted[0].id {
      UpsertInOrder(sorted[1..], e);
      HeadInOrder(sorted, Upsert(sorted[1..], e), e);
      assert forall x :: x in sorted ==> x == sorted[0] || x in sorted[1..];
    }
  }

  /** Sorting a dictionary yields its events in strictly increasing id order. */
  lemma {:induction false} UpsertAllInOrder(sorted: seq<Event>, events: seq<Event>)
    requires InOrder(sorted)
    ensures InOrder(UpsertAll(sorted, events))
  {
    if events != [] {
      UpsertAllInOrder(sorted, events[..|events| - 1]);
      UpsertInOrder(UpsertAll(sorted, events[..|events| - 1]), events[|events| - 1]);
    }
  }

  lemma {:induction false} UpsertTwice(sorted: seq<Event>, a: Event, b: Event)
    requires a.id == b.id
    ensures Upsert(Upsert(sorted, a), b) == Upsert(sorted, b)
  {
    if sorted != [] && a.id > sorted[0].id {
      UpsertTwice(sorted[1..], a, b);
    }
  }

  lemma {:induction false} UpsertCommutes(sorted: seq<Event>, a: Event, b: Event)
    requires a.id != b.id
    ensures Upsert(Upsert(sorted, a), b) == Upsert(Upsert(sorted, b), a)
  {
    if sorted != [] && a.id > sorted[0].id && b.id > sorted[0].id {
      UpsertCommutes(sorted[1..], a, b);
      assert ([sorted[0]] + Upsert(sorted[1..], a))[1..] == Upsert(sorted[1..], a);
      assert ([sorted[0]] + Upsert(sorted[1..], b))[1..] == Upsert(sorted[1..], b);
    }
  }

  lemma {:induction false} SortedPut(m: seq<Event>, e: Event)
    requires Known(m, e.id)
    ensures UpsertAll([], Put(m, e)) == Upsert(UpsertAll([], m), e)
  {
    var front, last := m[..|m| - 1], m[|m| - 1];
    var s := UpsertAll([], front);
    if last.id == e.id {
      assert (front + [e])[..|front|] == front;
      UpsertTwice(s, last, e);
    } else {
      var i :| 0 <= i < |m| && m[i].id == e.id;
      assert front[i].id == e.id;
      SortedPut(front, e);
      assert (Put(front, e) + [last])[..|Put(front, e)|] == Put(front, e);
      UpsertCommutes(s, e, last);
    }
  }

  /** Sorting after assigning is inserting into the sorted list. */
  lemma {:induction false} SortedPutAll(m: seq<Event>, events: seq<Event>)
    ensures UpsertAll([], PutAll(m, events)) == UpsertAll(UpsertAll([], m), events)
  {
    if events != [] {
      var front, last := events[..|events| - 1], events[|events| - 1];
      SortedPutAll(m, front);
      var before := PutAll(m, front);
      if Known(before, last.id) {
        SortedPut(before, last);
      } else {
        assert (before + [last])[..|before|] == before;
      }
    }
  }

  // --------------------------------------- truncating the window is not visible

  lemma {:induction false} UpsertBeyond(sorted: seq<Event>, e: Event, limit: nat)
    requires limit <= |sorted| && forall i :: 0 <= i < limit ==> sorted[i].id < e.id
    ensures limit <= |Upsert(sorted, e)| && Upsert(sorted, e)[..limit] == sorted[..limit]
  {
    if limit > 0 {
      UpsertBeyond(sorted[1..], e, limit - 1);
      assert Upsert(sorted, e)[..limit] == [sorted[0]] + Upsert(sorted[1..], e)[..limit - 1];
      assert sorted[..limit] == [sorted[0]] + sorted[1..][..limit - 1];
    }
  }

  /** Inserting an event behind `n` smaller ones leaves at least n + 1 events up to it. */
  lemma {:induction false} UpsertReaches(sorted: seq<Event>, e: Event, n: nat)
    requires InOrder(sorted) && n <= |sorted| && (n > 0 ==> sorted[n - 1].id < e.id)
    ensures n < |Upsert(sorted, e)| && Upsert(sorted, e)[n].id <= e.id
  {
    if n > 0 {
      assert n > 1 ==> sorted[1..][n - 2] == sorted[n - 1];
      assert sorted[0].id < e.id;
      UpsertReaches(sorted[1..], e, n - 1);
    }
  }

  lemma {:induction false} WindowReaches(sorted: seq<Event>, window: seq<Event>)
    requires InOrder(sorted) && InOrder(window) && window != []
    ensures InOrder(UpsertAll(sorted, window)) && |window| <= |UpsertAll(sorted, window)|
    ensures UpsertAll(sorted, window)[|window| - 1].id <= window[|window| - 1].id
  {
    var front, last := window[..|window| - 1], window[|window| - 1];
    UpsertAllInOrder(sorted, window);
    UpsertAllInOrder(sorted, front);
    if front != [] {
      WindowReaches(sorted, front);
      assert front[|front| - 1] == window[|front| - 1];
    }
    UpsertReaches(UpsertAll(sorted, front), last, |front|);
  }

  /** An event beyond the first events kept does not disturb them. */
  lemma BeyondKept(so: seq<Event>, base: seq<Event>, kept: seq<Event>, last: Event)
    requires InOrder(so) && kept != [] && |kept| <= |so| && |kept| <= |base| && so[..|kept|] == base[..|kept|]
    requires base[|kept| - 1].id <= kept[|kept| - 1].id < last.id
    ensures |kept| <= |Upsert(so, last)| && Upsert(so, last)[..|kept|] == base[..|kept|]
  {
    assert so[|kept| - 1] == so[..|kept|][|kept| - 1] == base[|kept| - 1];
    UpsertBeyond(so, last, |kept|);
  }

  lemma {:induction false} CutIsBeyond(sorted: seq<Event>, window: seq<Event>, limit: nat)
    requires InOrder(sorted) && InOrder(window) && 0 < limit <= |window|
    ensures limit <= |UpsertAll(sorted, window)| && limit <= |UpsertAll(sorted, window[..limit])|
    ensures UpsertAll(sorted, window)[..limit] == UpsertAll(sorted, window[..limit])[..limit]
  {
    InOrderPrefix(window, limit);
    WindowReaches(sorted, window[..limit]);
    if limit == |window| {
      assert window[..limit] == window;
    } else {
      var front, last := window[..|window| - 1], window[|window| - 1];
      InOrderPrefix(window, |front|);
      assert front[..limit] == window[..limit];
      CutIsBeyond(sorted, front, limit);
      UpsertAllInOrder(sorted, front);
      assert window[limit - 1].id < last.id;
      BeyondKept(UpsertAll(sorted, front), UpsertAll(sorted, window[..limit]), window[..limit], last);
    }
  }

  lemma FirstIsPrefix<T>(s: seq<T>, limit: nat)
    requires limit <= |s|
    ensures First(s, limit) == s[..limit]
  {
  }

  /**
   Merging only the first `limit` events of a window in id order gives the same
   first `limit` events as merging the whole window, whatever the transcript holds.
   */
  lemma TruncationUnseen(transcript: seq<Event>, window: seq<Event>, limit: nat)
    requires InOrder(window)
    ensures First(UpsertAll([], PutAll(transcript, First(window, limit))), limit) ==
            First(UpsertAll([], PutAll(transcript, window)), limit)
  {
    if |window| > limit > 0 {
      var base := UpsertAll([], transcript);
      SortedPutAll(transcript, window[..limit]);
      SortedPutAll(transcript, window);
      UpsertAllInOrder([], transcript);
      CutIsBeyond(base, window, limit);
      FirstIsPrefix(UpsertAll(base, window), limit);
      FirstIsPrefix(UpsertAll(base, window[..limit]), limit);
    }
  }

  // ----------------------------------------------------------- the whole read

  function RestoredAfter(lines: seq<RawEvent>, after: int): seq<Event> {
    if lines == [] then []
    else
      var front, last := RestoredAfter(lines[..|lines| - 1], after), lines[|lines| - 1];
      if RawId(last) > after && FromDict(last).Some? then front + [FromDict(last).value] else front
  }

  /** Merge restored and recent events, recent ones winning, sort by id, and truncate. */
  function ReadResult(restored: seq<Event>, recent: seq<Event>, limit: nat): seq<Event> {
    First(UpsertAll([], PutAll(PutAll([], restored), recent)), limit)
  }

  /**
   The transcript is read outside the store's lock, so memory may be read later:
   events recorded in between, by whatever thread, are not among the lines.
   */
  method DurableCallEvents(store: EventStore, transcripts: TranscriptStore, callId: string, after: int, limit: nat)
    returns (result: seq<Event>)
    requires store.Valid()
    ensures var window := Filter(Window(store.history, store.maxContextEvents), after, Some(callId));
            var restored := RestoredAfter(transcripts.File(callId), after);
            result == ReadResult(restored, First(window, limit), limit)
    ensures AllTranscribed(store, transcripts) && callId != "system" &&
            DistinctIds(store.history) && Retrievable(store.history, callId) ==>
              result == First(Merged(transcripts.alnum, store.history, callId, after), limit)
  {
    var lines := transcripts.Read(callId, after);
    RestoredIsRestoredAfter(transcripts.File(callId), after);
    result := FinishRead(lines, store, callId, after, limit);
    if AllTranscribed(store, transcripts) && callId != "system" &&
       DistinctIds(store.history) && Retrievable(store.history, callId)
    {
      ReadIsMerged(transcripts.alnum, store.history, store.maxContextEvents, callId, after, limit);
    }
  }

  /** The second step of a read, whose lines the transcript held when an earlier part of the history was recorded. */
  method FinishRead(lines: seq<RawEvent>, store: EventStore, callId: string, after: int, limit: nat)
    returns (result: seq<Event>)
    requires store.Valid()
    ensures var window := Filter(Window(store.history, store.maxContextEvents), after, Some(callId));
            result == ReadResult(RestoredLines(lines), First(window, limit), limit)
    ensures forall alnum, earlier :: lines == RawAfter(TranscriptOf(alnum, earlier, callId), after) ==>
              result == LateRead(alnum, earlier, store.history, store.maxContextEvents, callId, after, limit)
  {
    var merged := MergeRestored(lines);
    var recent := store.ListEvents(after, Some(callId), limit);
    merged := MergeRecent(merged, recent);
    result := SortById(merged);
    if |result| > limit {
      result := result[..limit];
    }
    forall alnum, earlier | lines == RawAfter(TranscriptOf(alnum, earlier, callId), after)
      ensures RestoredLines(lines) == Restored(alnum, earlier, callId, after)
    {
      RestoredIsRestoredAfter(TranscriptOf(alnum, earlier, callId), after);
    }
  }

  method MergeRestored(lines: seq<RawEvent>) returns (merged: seq<Event>)
    ensures merged == PutAll([], RestoredLines(lines))
  {
    merged := [];
    for i := 0 to |lines|
      invariant merged == PutAll([], RestoredLines(lines[..i]))
    {
      assert lines[..i + 1][..i] == lines[..i];
      var event := FromDict(lines[i]);
      if event.Some? {
        ghost var restored := RestoredLines(lines[..i]);
        assert (restored + [event.value])[..|restored|] == restored;
        merged := PutOrAppend(merged, event.value);
      }
    }
    assert lines[..|lines|] == lines;
  }

  method MergeRecent(base: seq<Event>, recent: seq<Event>) returns (merged: seq<Event>)
    ensures merged == PutAll(base, recent)
  {
    merged := base;
    for i := 0 to |recent|
      invariant merged == PutAll(base, recent[..i])
    {
      assert recent[..i + 1][..i] == recent[..i];
      merged := PutOrAppend(merged, recent[i]);
    }
    assert recent[..|recent|] == recent;
  }

  method SortById(merged: seq<Event>) returns (sorted: seq<Event>)
    ensures sorted == UpsertAll([], merged)
  {
    sorted := [];
    for i := 0 to |merged|
      invariant sorted == UpsertAll([], merged[..i])
    {
      assert merged[..i + 1][..i] == merged[..i];
      sorted := Upsert(sorted, merged[i]);
    }
    assert merged[..|merged|] == merged;
  }

  function RestoredLines(lines: seq<RawEvent>): seq<Event> {
    if lines == [] then []
    else
      var front, last := RestoredLines(lines[..|lines| - 1]), FromDict(lines[|lines| - 1]);
      if last.Some? then front + [last.value] else front
  }

  lemma {:induction false} RestoredIsRestoredAfter(lines: seq<RawEvent>, after: int)
    ensures RestoredLines(RawAfter(lines, after)) == RestoredAfter(lines, after)
  {
    if lines != [] {
      var front, last := lines[..|lines| - 1], lines[|lines| - 1];
      RestoredIsRestoredAfter(front, after);
      var kept := RawAfter(front, after);
      assert (kept + [last])[..|kept|] == kept;
    }
  }

  // ------------------------------------------------ what the transcript restores

  /** What can be read back of the events in the call's transcript file. */
  function Restored(alnum: Alnum, history: seq<Event>, callId: string, after: int): seq<Event> {
    RestoredAfter(TranscriptOf(alnum, history, callId), after)
  }

  /** The event reads back from a file as it was recorded. */
  predicate Restores(e: Event) {
    FromDict(ToDict(e)) == Some(e)
  }

  lemma RestoredStep(alnum: Alnum, front: seq<Event>, last: Event, callId: string, after: int)
    ensures Restored(alnum, front + [last], callId, after) == Restored(alnum, front, callId, after) +
            if Transcribed(alnum, last, callId) && last.id > after && FromDict(ToDict(last)).Some?
            then [FromDict(ToDict(last)).value] else []
  {
    assert (front + [last])[..|front|] == front;
    var lines := TranscriptOf(alnum, front, callId);
    assert (lines + [ToDict(last)])[..|lines|] == lines;
  }

  /** Exactly the readable events of the file are restored, each under its own id. */
  lemma {:induction false} RestoredMembers(alnum: Alnum, history: seq<Event>, callId: string, after: int)
    ensures forall e :: e in history && Transcribed(alnum, e, callId) && e.id > after && FromDict(ToDict(e)).Some? ==>
              FromDict(ToDict(e)).value in Restored(alnum, history, callId, after)
    ensures forall x :: x in Restored(alnum, history, callId, after) ==>
              exists i :: 0 <= i < |history| && RestoredFrom(alnum, history[i], x, callId, after)
  {
    if history != [] {
      var front, last := history[..|history| - 1], history[|history| - 1];
      RestoredMembers(alnum, front, callId, after);
      assert history == front + [last];
      RestoredStep(alnum, front, last, callId, after);
      forall x | x in Restored(alnum, history, callId, after)
        ensures exists i :: 0 <= i < |history| && RestoredFrom(alnum, history[i], x, callId, after)
      {
        if x in Restored(alnum, front, callId, after) {
          var i :| 0 <= i < |front| && RestoredFrom(alnum, front[i], x, callId, after);
          assert history[i] == front[i];
        } else {
          assert RestoredFrom(alnum, history[|front|], x, callId, after);
        }
      }
    }
  }

  predicate RestoredFrom(alnum: Alnum, e: Event, x: Event, callId: string, after: int) {
    Transcribed(alnum, e, callId) && e.id > after && FromDict(ToDict(e)) == Some(x) && x.id == e.id
  }

  predicate Differ(events: seq<Event>, i: int, j: int)
    requires 0 <= i < |events| && 0 <= j < |events|
  {
    events[i].id != events[j].id
  }

  ghost predicate DistinctIds(events: seq<Event>) {
    forall i, j :: 0 <= i < j < |events| ==> Differ(events, i, j)
  }

  lemma IdsDiffer(events: seq<Event>, i: nat, j: nat)
    requires DistinctIds(events) && i < |events| && j < |events| && i != j
    ensures events[i].id != events[j].id
  {
    assert Differ(events, Min(i, j), Max(i, j));
  }

  lemma DifferentIds(history: seq<Event>, a: Event, b: Event)
    requires DistinctIds(history) && a in history && b in history && a != b
    ensures a.id != b.id
  {
    var i :| 0 <= i < |history| && history[i] == a;
    var j :| 0 <= j < |history| && history[j] == b;
    IdsDiffer(history, i, j);
  }

  lemma DistinctFront(front: seq<Event>, last: Event)
    requires DistinctIds(front + [last])
    ensures DistinctIds(front) && forall e :: e in front ==> e.id != last.id
  {
    forall i, j | 0 <= i < j < |front| ensures Differ(front, i, j) {
      assert Differ(front + [last], i, j);
    }
    forall i | 0 <= i < |front| ensures front[i].id != last.id {
      assert Differ(front + [last], i, |front|);
    }
  }

  lemma DistinctMore(front: seq<Event>, last: Event)
    requires DistinctIds(front) && forall e :: e in front ==> e.id != last.id
    ensures DistinctIds(front + [last])
  {
    forall i, j | 0 <= i < j <= |front| ensures Differ(front + [last], i, j) {
      assert j < |front| ==> Differ(front, i, j);
      assert front[i] in front;
    }
  }

  lemma {:induction false} RestoredDistinct(alnum: Alnum, history: seq<Event>, callId: string, after: int)
    requires DistinctIds(history)
    ensures DistinctIds(Restored(alnum, history, callId, after))
  {
    if history != [] {
      var front, last := history[..|history| - 1], history[|history| - 1];
      assert history == front + [last];
      DistinctFront(front, last);
      RestoredDistinct(alnum, front, callId, after);
      RestoredMembers(alnum, front, callId, after);
      RestoredStep(alnum, front, last, callId, after);
      var before := Restored(alnum, front, callId, after);
      if Transcribed(alnum, last, callId) && last.id > after && FromDict(ToDict(last)).Some? {
        DistinctMore(before, FromDict(ToDict(last)).value);
      }
    }
  }

  // ------------------------------------------------------------------- merging

  lemma {:induction false} UpsertPresent(sorted: seq<Event>, i: nat)
    requires InOrder(sorted) && i < |sorted|
    ensures Upsert(sorted, sorted[i]) == sorted
  {
    if i > 0 {
      UpsertPresent(sorted[1..], i - 1);
      assert sorted == [sorted[0]] + sorted[1..];
    }
  }

  lemma {:induction false} UpsertAllPresent(sorted: seq<Event>, events: seq<Event>)
    requires InOrder(sorted) && forall e :: e in events ==> e in sorted
    ensures UpsertAll(sorted, events) == sorted
  {
    if events != [] {
      var front, last := events[..|events| - 1], events[|events| - 1];
      assert forall e :: e in front ==> e in events;
      UpsertAllPresent(sorted, front);
      assert last in events;
      var i :| 0 <= i < |sorted| && sorted[i] == last;
      UpsertPresent(sorted, i);
    }
  }

  /** Merging adds the given events and nothing else. */
  lemma {:induction false} UpsertAllFrom(sorted: seq<Event>, events: seq<Event>)
    requires InOrder(sorted)
    ensures InOrder(UpsertAll(sorted, events)) && |UpsertAll(sorted, events)| <= |sorted| + |events|
    ensures forall x :: x in UpsertAll(sorted, events) ==> x in sorted || x in events
  {
    if events != [] {
      var front, last := events[..|events| - 1], events[|events| - 1];
      UpsertAllFrom(sorted, front);
      assert events == front + [last];
      UpsertFrom(sorted, UpsertAll(sorted, front), front, last);
    }
  }

  lemma UpsertFrom(sorted: seq<Event>, merged: seq<Event>, front: seq<Event>, last: Event)
    requires InOrder(merged) && forall x :: x in merged ==> x in sorted || x in front
    ensures InOrder(Upsert(merged, last)) && |Upsert(merged, last)| <= |merged| + 1
    ensures forall x :: x in Upsert(merged, last) ==> x in sorted || x in front + [last]
  {
    UpsertInOrder(merged, last);
    UpsertGrows(merged, last);
  }

  lemma UpsertHas(sorted: seq<Event>, front: seq<Event>, last: Event)
    requires InOrder(sorted) && forall e :: e in front ==> e in sorted && e.id != last.id
    ensures forall e :: e in front + [last] ==> e in Upsert(sorted, last)
  {
    UpsertInOrder(sorted, last);
  }

  /** Of events with different ids it loses none. */
  lemma {:induction false} UpsertAllHas(sorted: seq<Event>, events: seq<Event>)
    requires InOrder(sorted) && DistinctIds(events)
    ensures forall e :: e in events ==> e in UpsertAll(sorted, events)
  {
    if events != [] {
      var front, last := events[..|events| - 1], events[|events| - 1];
      assert events == front + [last];
      DistinctFront(front, last);
      UpsertAllHas(sorted, front);
      UpsertAllFrom(sorted, front);
      UpsertHas(UpsertAll(sorted, front), front, last);
    }
  }

  lemma {:induction false} UpsertGrows(sorted: seq<Event>, e: Event)
    ensures |Upsert(sorted, e)| <= |sorted| + 1
  {
    if sorted != [] && e.id > sorted[0].id {
      UpsertGrows(sorted[1..], e);
    }
  }

  /** A merge keeps every event whose id is not merged in again. */
  lemma {:induction false} UpsertAllKeeps(sorted: seq<Event>, events: seq<Event>, x: Event)
    requires InOrder(sorted) && x in sorted && forall e :: e in events ==> e.id != x.id
    ensures x in UpsertAll(sorted, events)
  {
    if events != [] {
      var front, last := events[..|events| - 1], events[|events| - 1];
      assert last in events && forall e :: e in front ==> e in events;
      UpsertAllKeeps(sorted, front, x);
      UpsertAllFrom(sorted, front);
      UpsertInOrder(UpsertAll(sorted, front), last);
    }
  }

  lemma FirstMembers<T>(s: seq<T>, limit: nat)
    ensures forall x :: x in First(s, limit) ==> x in s
    ensures |s| <= limit ==> First(s, limit) == s
  {
  }

  lemma {:induction false} FilterDistinct(events: seq<Event>, after: int, callId: Option<string>)
    requires DistinctIds(events)
    ensures DistinctIds(Filter(events, after, callId))
  {
    if events != [] {
      var front, last := events[..|events| - 1], events[|events| - 1];
      assert events == front + [last];
      DistinctFront(front, last);
      FilterDistinct(front, after, callId);
      FilterIsSelection(front, after, callId);
      DistinctMore(Filter(front, after, callId), last);
    }
  }

  /** No more different events than there is room for. */
  lemma {:induction false} SubsetIsShorter(a: seq<Event>, b: seq<Event>)
    requires DistinctIds(a) && forall e :: e in a ==> e in b
    ensures |a| <= |b|
  {
    if a != [] {
      var front, last := a[..|a| - 1], a[|a| - 1];
      assert a == front + [last];
      DistinctFront(front, last);
      assert last in a;
      var p :| 0 <= p < |b| && b[p] == last;
      var rest := b[..p] + b[p + 1..];
      forall e | e in front ensures e in rest {
        assert e in a;
        var q :| 0 <= q < |b| && b[q] == e;
        assert if q < p then rest[q] == e else rest[q - 1] == e;
      }
      SubsetIsShorter(front, rest);
    }
  }

  /** Among sorted events, those below `x` come first. */
  lemma BelowComesFirst(sorted: seq<Event>, below: seq<Event>, x: int, k: nat)
    requires InOrder(sorted) && DistinctIds(below) && k <= |below|
    requires forall e :: e in below ==> e in sorted && e.id < x
    ensures k <= |sorted| && forall i :: 0 <= i < k ==> sorted[i].id < x
  {
    SubsetIsShorter(below, sorted);
    forall i | 0 <= i < k ensures sorted[i].id < x {
      if sorted[i].id >= x {
        forall e | e in below ensures e in sorted[..i] {
          var q :| 0 <= q < |sorted| && sorted[q] == e;
          assert q < i;
          assert sorted[..i][q] == e;
        }
        SubsetIsShorter(below, sorted[..i]);
      }
    }
  }

  // ----------------------------------------------------------------- whole reads

  /** What a read returns, given when its two steps are taken and how much the store keeps in memory. */
  function LateRead(
    alnum: Alnum, earlier: seq<Event>, history: seq<Event>, bound: nat, callId: string, after: int, limit: nat):
    seq<Event>
  {
    ReadResult(Restored(alnum, earlier, callId, after),
               First(Filter(Window(history, bound), after, Some(callId)), limit), limit)
  }

  /** What a read returns if nothing is recorded between its steps. */
  function Read(alnum: Alnum, history: seq<Event>, bound: nat, callId: string, after: int, limit: nat): seq<Event> {
    LateRead(alnum, history, history, bound, callId, after, limit)
  }

  /** The restored transcript, in id order. */
  function Sorted(alnum: Alnum, history: seq<Event>, callId: string, after: int): seq<Event> {
    UpsertAll([], Restored(alnum, history, callId, after))
  }

  lemma LateReadMerges(
    alnum: Alnum, earlier: seq<Event>, history: seq<Event>, bound: nat, callId: string, after: int, limit: nat)
    ensures LateRead(alnum, earlier, history, bound, callId, after, limit) ==
            First(UpsertAll(Sorted(alnum, earlier, callId, after),
                            First(Filter(Window(history, bound), after, Some(callId)), limit)), limit)
  {
    var base := Restored(alnum, earlier, callId, after);
    var recent := First(Filter(Window(history, bound), after, Some(callId)), limit);
    SortedPutAll([], base);
    SortedPutAll(PutAll([], base), recent);
  }

  lemma ReadMerges(alnum: Alnum, history: seq<Event>, bound: nat, callId: string, after: int, limit: nat)
    ensures Read(alnum, history, bound, callId, after, limit) ==
            First(UpsertAll(Sorted(alnum, history, callId, after),
                            First(Filter(Window(history, bound), after, Some(callId)), limit)), limit)
  {
    LateReadMerges(alnum, history, history, bound, callId, after, limit);
  }

  lemma SortedExactly(alnum: Alnum, history: seq<Event>, callId: string, after: int)
    requires DistinctIds(history)
    ensures InOrder(Sorted(alnum, history, callId, after))
    ensures forall x :: x in Sorted(alnum, history, callId, after) <==> x in Restored(alnum, history, callId, after)
  {
    RestoredDistinct(alnum, history, callId, after);
    UpsertAllFrom([], Restored(alnum, history, callId, after));
    UpsertAllHas([], Restored(alnum, history, callId, after));
  }

  /** An event that restores is there, one that does not is not. */
  lemma OwnSorted(alnum: Alnum, history: seq<Event>, callId: string, after: int, e: Event)
    requires DistinctIds(history) && e in history && Transcribed(alnum, e, callId) && e.id > after
    ensures e in Sorted(alnum, history, callId, after) <==> Restores(e)
  {
    SortedExactly(alnum, history, callId, after);
    RestoredMembers(alnum, history, callId, after);
    if e in Restored(alnum, history, callId, after) {
      var i :| 0 <= i < |history| && RestoredFrom(alnum, history[i], e, callId, after);
      var k :| 0 <= k < |history| && history[k] == e;
      if i != k { IdsDiffer(history, i, k); }
    }
  }

  // ----------------------------------------------------- when compaction is unseen

  predicate IsOwn(e: Event, callId: string) {
    e.callId == callId
  }

  /**
   Every event of the call but the very last one recorded reads back as it was
   recorded; the last one, always in memory, may fail to if no event of the call
   with a larger id was recorded before it.
   */
  ghost predicate Retrievable(history: seq<Event>, callId: string) {
    && (forall i :: 0 <= i < |history| - 1 && IsOwn(history[i], callId) ==> Restores(history[i]))
    && (history != [] && IsOwn(history[|history| - 1], callId) && !Restores(history[|history| - 1]) ==>
          forall i :: 0 <= i < |history| - 1 && IsOwn(history[i], callId) ==>
            history[i].id < history[|history| - 1].id)
  }

  /** The restored transcript with the last event as it was recorded. */
  function Merged(alnum: Alnum, history: seq<Event>, callId: string, after: int): seq<Event> {
    var sorted := Sorted(alnum, history, callId, after);
    if history == [] || history[|history| - 1].id <= after || !IsOwn(history[|history| - 1], callId) then sorted
    else Upsert(sorted, history[|history| - 1])
  }

  /** Events of the call that are retained, but for the last one recorded, are in the transcript already. */
  lemma RetainedIsSorted(alnum: Alnum, history: seq<Event>, from: nat, to: nat, callId: string, after: int)
    requires DistinctIds(history) && callId != "system" && from <= to <= |history|
    requires forall i :: from <= i < to && IsOwn(history[i], callId) ==> Restores(history[i])
    ensures var kept := Filter(history[from..to], after, Some(callId));
            DistinctIds(kept) &&
            forall e :: e in kept ==> e in Sorted(alnum, history, callId, after) && e in history[from..to]
  {
    var part := history[from..to];
    forall i, j | 0 <= i < j < |part| ensures Differ(part, i, j) {
      IdsDiffer(history, from + i, from + j);
    }
    FilterDistinct(part, after, Some(callId));
    FilterIsSelection(part, after, Some(callId));
    forall e | e in Filter(part, after, Some(callId)) ensures e in Sorted(alnum, history, callId, after) && e in part {
      var i :| 0 <= i < |part| && part[i] == e;
      assert history[from + i] == e;
      OwnSorted(alnum, history, callId, after, e);
    }
  }

  lemma ReadOfKnown(alnum: Alnum, history: seq<Event>, bound: nat, callId: string, after: int, limit: nat)
    requires DistinctIds(history) && callId != "system"
    requires forall i :: 0 <= i < |history| && IsOwn(history[i], callId) ==> Restores(history[i])
    ensures Read(alnum, history, bound, callId, after, limit) == First(Sorted(alnum, history, callId, after), limit)
  {
    var from := |history| - |Window(history, bound)|;
    assert Window(history, bound) == history[from..|history|];
    RetainedIsSorted(alnum, history, from, |history|, callId, after);
    ReadMerges(alnum, history, bound, callId, after, limit);
    SortedExactly(alnum, history, callId, after);
    FirstMembers(Filter(Window(history, bound), after, Some(callId)), limit);
    UpsertAllPresent(Sorted(alnum, history, callId, after),
                     First(Filter(Window(history, bound), after, Some(callId)), limit));
  }

  lemma MergedOfKnown(alnum: Alnum, history: seq<Event>, callId: string, after: int)
    requires DistinctIds(history) && callId != "system"
    requires forall i :: 0 <= i < |history| && IsOwn(history[i], callId) ==> Restores(history[i])
    ensures Merged(alnum, history, callId, after) == Sorted(alnum, history, callId, after)
  {
    if history != [] && history[|history| - 1].id > after && IsOwn(history[|history| - 1], callId) {
      var last, sorted := history[|history| - 1], Sorted(alnum, history, callId, after);
      OwnSorted(alnum, history, callId, after, last);
      SortedExactly(alnum, history, callId, after);
      var i :| 0 <= i < |sorted| && sorted[i] == last;
      UpsertPresent(sorted, i);
    }
  }

  /** The window up to its last event. */
  lemma WindowSplits(history: seq<Event>, bound: nat) returns (from: nat)
    requires history != []
    ensures from < |history| && Window(history, bound) == history[from..|history| - 1] + [history[|history| - 1]]
  {
    from := |history| - |Window(history, bound)|;
  }

  lemma KeptBeforeLast(alnum: Alnum, history: seq<Event>, from: nat, callId: string, after: int, kept: seq<Event>)
    requires DistinctIds(history) && callId != "system" && from < |history| && Retrievable(history, callId)
    requires IsOwn(history[|history| - 1], callId) && !Restores(history[|history| - 1])
    requires kept == Filter(history[from..|history| - 1], after, Some(callId))
    ensures DistinctIds(kept)
    ensures forall e :: e in kept ==>
              e in Sorted(alnum, history, callId, after) && after < e.id < history[|history| - 1].id
  {
    var part := history[from..|history| - 1];
    RetainedIsSorted(alnum, history, from, |history| - 1, callId, after);
    forall e | e in kept ensures after < e.id < history[|history| - 1].id {
      KeptIsOwn(part, callId, after, e);
      EarlierIsSmaller(history, from, callId, e);
    }
  }

  lemma KeptIsOwn(part: seq<Event>, callId: string, after: int, e: Event)
    requires e in Filter(part, after, Some(callId))
    ensures e in part && IsOwn(e, callId) && after < e.id
  {
    FilterIsSelection(part, after, Some(callId));
  }

  lemma EarlierIsSmaller(history: seq<Event>, from: nat, callId: string, e: Event)
    requires from < |history| && Retrievable(history, callId)
    requires IsOwn(history[|history| - 1], callId) && !Restores(history[|history| - 1])
    requires e in history[from..|history| - 1] && IsOwn(e, callId)
    ensures e.id < history[|history| - 1].id
  {
    var i :| 0 <= i < |history| - 1 - from && history[from..|history| - 1][i] == e;
    assert history[from + i] == e;
  }

  lemma ReadWithLast(alnum: Alnum, history: seq<Event>, bound: nat, callId: string, after: int, limit: nat)
    requires DistinctIds(history) && callId != "system" && history != [] && Retrievable(history, callId)
    requires IsOwn(history[|history| - 1], callId) && !Restores(history[|history| - 1])
    ensures Read(alnum, history, bound, callId, after, limit) == First(Merged(alnum, history, callId, after), limit)
  {
    var last, sorted := history[|history| - 1], Sorted(alnum, history, callId, after);
    var from := WindowSplits(history, bound);
    var part := history[from..|history| - 1];
    var kept := Filter(part, after, Some(callId));
    KeptBeforeLast(alnum, history, from, callId, after, kept);
    SortedExactly(alnum, history, callId, after);
    ReadMerges(alnum, history, bound, callId, after, limit);
    assert (part + [last])[..|part|] == part;
    if kept != [] {
      assert kept[0] in kept;
      assert last.id > after;
    }
    if last.id > after {
      LastMerges(sorted, kept, last, limit);
    }
  }

  /** Whether or not the limit leaves room for the last event, the result is the same. */
  lemma LastMerges(sorted: seq<Event>, kept: seq<Event>, last: Event, limit: nat)
    requires InOrder(sorted) && DistinctIds(kept)
    requires forall e :: e in kept ==> e in sorted && e.id < last.id
    ensures First(UpsertAll(sorted, First(kept + [last], limit)), limit) == First(Upsert(sorted, last), limit)
  {
    if |kept| < limit {
      assert First(kept + [last], limit) == kept + [last];
      assert (kept + [last])[..|kept|] == kept;
      UpsertAllPresent(sorted, kept);
    } else {
      assert First(kept + [last], limit) == kept[..limit];
      UpsertAllPresent(sorted, kept[..limit]);
      BelowComesFirst(sorted, kept, last.id, limit);
      UpsertBeyond(sorted, last, limit);
      FirstIsPrefix(sorted, limit);
      FirstIsPrefix(Upsert(sorted, last), limit);
    }
  }

  /**
   Then a reader never sees the effect of compaction: in whatever order the events
   were recorded and for every bound on the memory window, a read returns the
   first `limit` events of the whole history's transcript after the cursor.
   */
  lemma ReadIsMerged(alnum: Alnum, history: seq<Event>, bound: nat, callId: string, after: int, limit: nat)
    requires DistinctIds(history) && callId != "system" && Retrievable(history, callId)
    ensures Read(alnum, history, bound, callId, after, limit) == First(Merged(alnum, history, callId, after), limit)
  {
    if history != [] && IsOwn(history[|history| - 1], callId) && !Restores(history[|history| - 1]) {
      ReadWithLast(alnum, history, bound, callId, after, limit);
    } else {
      ReadOfKnown(alnum, history, bound, callId, after, limit);
      MergedOfKnown(alnum, history, callId, after);
    }
  }

  // ------------------------------------------------------- and when it is seen

  lemma WindowOfOne(history: seq<Event>)
    requires history != []
    ensures Window(history, 1) == [history[|history| - 1]] && Window(history, 0) == history
  {
  }

  lemma ReadMembers(alnum: Alnum, history: seq<Event>, bound: nat, callId: string, after: int, limit: nat,
                    result: seq<Event>)
    requires DistinctIds(history) && result == Read(alnum, history, bound, callId, after, limit)
    ensures forall x :: x in result ==>
              x in Sorted(alnum, history, callId, after) ||
              x in First(Filter(Window(history, bound), after, Some(callId)), limit)
  {
    var sorted := Sorted(alnum, history, callId, after);
    var recent := First(Filter(Window(history, bound), after, Some(callId)), limit);
    ReadMerges(alnum, history, bound, callId, after, limit);
    SortedExactly(alnum, history, callId, after);
    UpsertAllFrom(sorted, recent);
    FirstMembers(UpsertAll(sorted, recent), limit);
  }

  /** A limit with room for everything. */
  function Room(alnum: Alnum, history: seq<Event>, callId: string, after: int): nat {
    |Sorted(alnum, history, callId, after)| + |history|
  }

  /** While everything is retained, a read with room for everything is the merge of transcript and memory. */
  lemma WholeRead(alnum: Alnum, history: seq<Event>, callId: string, after: int, result: seq<Event>)
    requires DistinctIds(history)
    requires result == Read(alnum, history, 0, callId, after, Room(alnum, history, callId, after))
    ensures result == UpsertAll(Sorted(alnum, history, callId, after), Filter(history, after, Some(callId)))
  {
    var limit, kept := Room(alnum, history, callId, after), Filter(history, after, Some(callId));
    ReadMerges(alnum, history, 0, callId, after, limit);
    assert Window(history, 0) == history;
    FilterIsNoLonger(history, after, Some(callId));
    FirstMembers(kept, limit);
    SortedExactly(alnum, history, callId, after);
    UpsertAllFrom(Sorted(alnum, history, callId, after), kept);
    FirstMembers(UpsertAll(Sorted(alnum, history, callId, after), kept), limit);
  }

  /** An event that does not restore is returned while it is retained, and not when only a later one is. */
  lemma UnrestoredIsSeen(alnum: Alnum, history: seq<Event>, callId: string, i: nat,
                         whole: seq<Event>, compacted: seq<Event>)
    requires DistinctIds(history) && callId != "system" && i < |history| - 1
    requires IsOwn(history[i], callId) && !Restores(history[i])
    requires var after := history[i].id - 1;
             && whole == Read(alnum, history, 0, callId, after, Room(alnum, history, callId, after))
             && compacted == Read(alnum, history, 1, callId, after, Room(alnum, history, callId, after))
    ensures history[i] in whole && history[i] !in compacted
  {
    var e, after := history[i], history[i].id - 1;
    var limit := Room(alnum, history, callId, after);
    assert e in history;
    OwnSorted(alnum, history, callId, after, e);
    WholeRead(alnum, history, callId, after, whole);
    SortedExactly(alnum, history, callId, after);
    FilterIsSelection(history, after, Some(callId));
    FilterDistinct(history, after, Some(callId));
    UpsertAllHas(Sorted(alnum, history, callId, after), Filter(history, after, Some(callId)));
    ReadMembers(alnum, history, 1, callId, after, limit, compacted);
    WindowOfOne(history);
    FilterIsSelection(Window(history, 1), after, Some(callId));
    FirstMembers(Filter(Window(history, 1), after, Some(callId)), limit);
    IdsDiffer(history, i, |history| - 1);
  }

  lemma FirstOne<T>(s: seq<T>)
    requires s != []
    ensures First(s, 1) == [s[0]]
  {
  }

  /** With an own event of a larger id before it, the last event is not the first one after the cursor. */
  lemma FirstIsEarlier(front: seq<Event>, last: Event, callId: string, e: Event)
    requires DistinctIds(front + [last]) && e in front && IsOwn(e, callId) && e.id > last.id
    ensures last !in First(Filter(front + [last], last.id - 1, Some(callId)), 1)
  {
    var kept := Filter(front, last.id - 1, Some(callId));
    DistinctFront(front, last);
    FilterIsSelection(front, last.id - 1, Some(callId));
    assert e in kept;
    assert kept[0] in kept;
    assert (front + [last])[..|front|] == front;
    FirstOne(Filter(front + [last], last.id - 1, Some(callId)));
  }

  /** The last event, if it does not restore, is missed behind a larger id recorded before it. */
  lemma OvertakenIsMissed(alnum: Alnum, front: seq<Event>, last: Event, callId: string, e: Event, whole: seq<Event>)
    requires DistinctIds(front + [last]) && callId != "system" && IsOwn(last, callId) && !Restores(last)
    requires e in front && IsOwn(e, callId) && e.id > last.id
    requires whole == Read(alnum, front + [last], 0, callId, last.id - 1, 1)
    ensures last !in whole
  {
    var history := front + [last];
    assert last in history;
    OwnSorted(alnum, history, callId, last.id - 1, last);
    FirstIsEarlier(front, last, callId, e);
    assert Window(history, 0) == history;
    ReadMembers(alnum, history, 0, callId, last.id - 1, 1, whole);
  }

  lemma UpsertFirst(sorted: seq<Event>, e: Event)
    requires InOrder(sorted) && forall x :: x in sorted ==> e.id <= x.id
    ensures Upsert(sorted, e) != [] && Upsert(sorted, e)[0] == e
  {
    if sorted != [] {
      assert sorted[0] in sorted;
    }
  }

  lemma SortedIsAfter(alnum: Alnum, history: seq<Event>, callId: string, after: int)
    requires DistinctIds(history)
    ensures forall x :: x in Sorted(alnum, history, callId, after) ==> after < x.id
  {
    SortedExactly(alnum, history, callId, after);
    RestoredMembers(alnum, history, callId, after);
  }

  lemma MergeOne(sorted: seq<Event>, e: Event, callId: string, after: int)
    requires e.callId == callId && e.id > after
    ensures UpsertAll(sorted, First(Filter([e], after, Some(callId)), 1)) == Upsert(sorted, e)
  {
    assert [e][..0] == [];
    assert Filter([e], after, Some(callId)) == [e] && First([e], 1) == [e];
  }

  lemma MergedFirst(sorted: seq<Event>, e: Event, callId: string, result: seq<Event>)
    requires InOrder(sorted) && e.callId == callId && forall x :: x in sorted ==> e.id - 1 < x.id
    requires result == First(UpsertAll(sorted, First(Filter([e], e.id - 1, Some(callId)), 1)), 1)
    ensures e in result
  {
    MergeOne(sorted, e, callId, e.id - 1);
    UpsertFirst(sorted, e);
    FirstOne(Upsert(sorted, e));
  }

  /** Retained alone, it is returned. */
  lemma LastAlone(alnum: Alnum, front: seq<Event>, last: Event, callId: string, result: seq<Event>)
    requires DistinctIds(front + [last]) && IsOwn(last, callId)
    requires result == Read(alnum, front + [last], 1, callId, last.id - 1, 1)
    ensures last in result
  {
    var history := front + [last];
    assert Window(history, 1) == [last];
    ReadMerges(alnum, history, 1, callId, last.id - 1, 1);
    SortedExactly(alnum, history, callId, last.id - 1);
    SortedIsAfter(alnum, history, callId, last.id - 1);
    MergedFirst(Sorted(alnum, history, callId, last.id - 1), last, callId, result);
  }

  ghost predicate BoundUnseen(alnum: Alnum, history: seq<Event>, bound: nat, callId: string, after: int, limit: nat) {
    Read(alnum, history, bound, callId, after, limit) == Read(alnum, history, 0, callId, after, limit)
  }

  /**
   Reads do not depend on how much is retained, if and only if every event of the
   call but the last one recorded reads back as it was recorded, and the last one
   does too or has the largest id of the call so far.
   */
  lemma CompactionUnseenExactly(alnum: Alnum, history: seq<Event>, callId: string)
    requires DistinctIds(history) && callId != "system"
    ensures (forall bound, after, limit :: BoundUnseen(alnum, history, bound, callId, after, limit)) <==>
            Retrievable(history, callId)
  {
    if Retrievable(history, callId) {
      forall bound, after, limit ensures BoundUnseen(alnum, history, bound, callId, after, limit) {
        ReadIsMerged(alnum, history, bound, callId, after, limit);
        ReadIsMerged(alnum, history, 0, callId, after, limit);
      }
    } else {
      CompactionSeen(alnum, history, callId);
    }
  }

  lemma OvertakenIsSeen(alnum: Alnum, front: seq<Event>, last: Event, callId: string, e: Event)
    requires DistinctIds(front + [last]) && callId != "system" && IsOwn(last, callId) && !Restores(last)
    requires e in front && IsOwn(e, callId) && e.id > last.id
    ensures !BoundUnseen(alnum, front + [last], 1, callId, last.id - 1, 1)
  {
    OvertakenIsMissed(alnum, front, last, callId, e, Read(alnum, front + [last], 0, callId, last.id - 1, 1));
    LastAlone(alnum, front, last, callId, Read(alnum, front + [last], 1, callId, last.id - 1, 1));
  }

  lemma UnrestoredIsUnequal(alnum: Alnum, history: seq<Event>, callId: string, i: nat)
    requires DistinctIds(history) && callId != "system" && i < |history| - 1
    requires IsOwn(history[i], callId) && !Restores(history[i])
    ensures exists after, limit :: !BoundUnseen(alnum, history, 1, callId, after, limit)
  {
    var after := history[i].id - 1;
    var limit := Room(alnum, history, callId, after);
    UnrestoredIsSeen(alnum, history, callId, i, Read(alnum, history, 0, callId, after, limit),
                     Read(alnum, history, 1, callId, after, limit));
    assert !BoundUnseen(alnum, history, 1, callId, after, limit);
  }

  /** What stands in the way: an event lost, or the last one overtaken. */
  lemma NotRetrievable(history: seq<Event>, callId: string) returns (i: nat)
    requires DistinctIds(history) && !Retrievable(history, callId)
    ensures i < |history| - 1 && IsOwn(history[i], callId)
    ensures Restores(history[i]) ==>
              var last := history[|history| - 1];
              IsOwn(last, callId) && !Restores(last) && history[i].id > last.id
  {
    var n := |history|;
    if k :| 0 <= k < n - 1 && IsOwn(history[k], callId) && !Restores(history[k]) {
      i := k;
    } else {
      i :| 0 <= i < n - 1 && IsOwn(history[i], callId) && history[i].id >= history[n - 1].id;
      IdsDiffer(history, i, n - 1);
    }
  }

  lemma CompactionSeen(alnum: Alnum, history: seq<Event>, callId: string)
    requires DistinctIds(history) && callId != "system" && !Retrievable(history, callId)
    ensures exists after, limit :: !BoundUnseen(alnum, history, 1, callId, after, limit)
  {
    var i := NotRetrievable(history, callId);
    if Restores(history[i]) {
      var front, last := history[..|history| - 1], history[|history| - 1];
      assert front[i] in front && history == front + [last];
      OvertakenIsSeen(alnum, front, last, callId, front[i]);
    } else {
      UnrestoredIsUnequal(alnum, history, callId, i);
    }
  }

  /** It is seen for a call id with a space in front: once evicted, the event is returned under another id. */
  lemma UntrimmedCallIsSeen(alnum: Alnum, kind: string, timestamp: string, data: Data)
    ensures var event, other := Event(1, " abc", kind, timestamp, data), Event(2, "other", kind, timestamp, data);
            exists after, limit :: !BoundUnseen(alnum, [event, other], 1, " abc", after, limit)
  {
    var event, other := Event(1, " abc", kind, timestamp, data), Event(2, "other", kind, timestamp, data);
    assert IsSpace(" abc"[0]);
    StripErases(" abc");
    assert Strip(" abc") != " abc";
    assert !Restores(event) && [event, other][0] == event;
    assert " abc"[0] != "system"[0];
    CompactionSeen(alnum, [event, other], " abc");
  }

  /** System events have no transcript, so of them a reader gets only what the window retains. */
  lemma SystemReadIsWindow(alnum: Alnum, history: seq<Event>, bound: nat, after: int, limit: nat)
    requires forall i :: 0 <= i < |"system"| ==> alnum("system"[i])
    ensures Read(alnum, history, bound, "system", after, limit) ==
            First(UpsertAll([], First(Filter(Window(history, bound), after, Some("system")), limit)), limit)
  {
    NoSystemTranscript(alnum, history);
    SortedPutAll([], First(Filter(Window(history, bound), after, Some("system")), limit));
  }

  lemma OnlySystemIsNamedSystem(alnum: Alnum, callId: string)
    requires SafeName(alnum, callId) == SafeName(alnum, "system")
    requires forall i :: 0 <= i < |"system"| ==> alnum("system"[i])
    ensures callId == "system"
  {
    assert |callId| == |SafeName(alnum, callId)| == |"system"|;
    forall i | 0 <= i < |callId| ensures callId[i] == "system"[i] {
      assert SafeName(alnum, callId)[i] == SafeName(alnum, "system")[i];
    }
  }

  lemma {:induction false} NoSystemTranscript(alnum: Alnum, history: seq<Event>)
    requires forall i :: 0 <= i < |"system"| ==> alnum("system"[i])
    ensures TranscriptOf(alnum, history, "system") == []
  {
    if history != [] {
      NoSystemTranscript(alnum, history[..|history| - 1]);
      var last := history[|history| - 1];
      if SafeName(alnum, last.callId) == SafeName(alnum, "system") {
        OnlySystemIsNamedSystem(alnum, last.callId);
      }
    }
  }

  // ---------------------------------------------------- calls that share a file

  /** Whatever other calls put into this call's transcript file cannot be read back. */
  ghost predicate FileOfItsOwn(alnum: Alnum, history: seq<Event>, callId: string) {
    forall e :: e in history && Transcribed(alnum, e, callId) && !IsOwn(e, callId) ==> FromDict(ToDict(e)).None?
  }

  ghost predicate ReadsOwn(alnum: Alnum, history: seq<Event>, bound: nat, callId: string, after: int, limit: nat) {
    Read(alnum, history, bound, callId, after, limit) ==
    First(UpsertAll([], Filter(history, after, Some(callId))), limit)
  }

  lemma RestoredIsOwnStep(alnum: Alnum, front: seq<Event>, last: Event, callId: string, after: int)
    requires callId != "system" && Restored(alnum, front, callId, after) == Filter(front, after, Some(callId))
    requires if IsOwn(last, callId) then Restores(last)
             else Transcribed(alnum, last, callId) ==> FromDict(ToDict(last)).None?
    ensures Restored(alnum, front + [last], callId, after) == Filter(front + [last], after, Some(callId))
  {
    assert (front + [last])[..|front|] == front;
    RestoredStep(alnum, front, last, callId, after);
    RestoredIfWanted(alnum, last, callId, after);
    var kept := Filter(front, after, Some(callId));
    assert kept + [] == kept;
  }

  lemma RestoredIfWanted(alnum: Alnum, e: Event, callId: string, after: int)
    requires callId != "system"
    requires if IsOwn(e, callId) then Restores(e)
             else Transcribed(alnum, e, callId) ==> FromDict(ToDict(e)).None?
    ensures (if Transcribed(alnum, e, callId) && e.id > after && FromDict(ToDict(e)).Some?
             then [FromDict(ToDict(e)).value] else []) ==
            (if Wanted(e, after, Some(callId)) then [e] else [])
  {
  }

  lemma {:induction false} RestoredIsOwn(alnum: Alnum, history: seq<Event>, callId: string, after: int)
    requires callId != "system" && FileOfItsOwn(alnum, history, callId)
    requires forall i :: 0 <= i < |history| && IsOwn(history[i], callId) ==> Restores(history[i])
    ensures Restored(alnum, history, callId, after) == Filter(history, after, Some(callId))
  {
    if history != [] {
      var front, last := history[..|history| - 1], history[|history| - 1];
      FrontOfItsOwn(alnum, history, callId);
      RestoredIsOwn(alnum, front, callId, after);
      assert history == front + [last];
      RestoredIsOwnStep(alnum, front, last, callId, after);
    }
  }

  lemma FrontOfItsOwn(alnum: Alnum, history: seq<Event>, callId: string)
    requires history != [] && FileOfItsOwn(alnum, history, callId)
    ensures FileOfItsOwn(alnum, history[..|history| - 1], callId)
    ensures var last := history[|history| - 1];
            Transcribed(alnum, last, callId) && !IsOwn(last, callId) ==> FromDict(ToDict(last)).None?
  {
    assert history[|history| - 1] in history && forall e :: e in history[..|history| - 1] ==> e in history;
  }

  lemma RestoredLast(alnum: Alnum, history: seq<Event>, callId: string, after: int)
    requires history != []
    ensures var front, last := history[..|history| - 1], history[|history| - 1];
            Restored(alnum, history, callId, after) == Restored(alnum, front, callId, after) +
            if Transcribed(alnum, last, callId) && last.id > after && FromDict(ToDict(last)).Some?
            then [FromDict(ToDict(last)).value] else []
  {
    RestoredStep(alnum, history[..|history| - 1], history[|history| - 1], callId, after);
    assert history == history[..|history| - 1] + [history[|history| - 1]];
  }

  /** With a file of its own, the merge is the call's events in id order. */
  lemma MergedIsOwn(alnum: Alnum, history: seq<Event>, callId: string, after: int)
    requires DistinctIds(history) && callId != "system"
    requires Retrievable(history, callId) && FileOfItsOwn(alnum, history, callId)
    ensures Merged(alnum, history, callId, after) == UpsertAll([], Filter(history, after, Some(callId)))
  {
    if history != [] {
      FrontIsOwn(alnum, history, callId, after);
      LastMergedIsOwn(alnum, history, callId, after);
    }
  }

  lemma LastMergedIsOwn(alnum: Alnum, history: seq<Event>, callId: string, after: int)
    requires history != [] && callId != "system"
    requires var front := history[..|history| - 1];
             Restored(alnum, front, callId, after) == Filter(front, after, Some(callId))
    requires var last := history[|history| - 1];
             Transcribed(alnum, last, callId) && FromDict(ToDict(last)).Some? ==> IsOwn(last, callId)
    ensures Merged(alnum, history, callId, after) == UpsertAll([], Filter(history, after, Some(callId)))
  {
    var own, last := Filter(history[..|history| - 1], after, Some(callId)), history[|history| - 1];
    RestoredLast(alnum, history, callId, after);
    if last.id > after && IsOwn(last, callId) {
      LastReplaces(own, last);
    } else {
      assert own + [] == own;
    }
  }

  lemma FrontIsOwn(alnum: Alnum, history: seq<Event>, callId: string, after: int)
    requires history != [] && callId != "system"
    requires Retrievable(history, callId) && FileOfItsOwn(alnum, history, callId)
    ensures var front := history[..|history| - 1];
            Restored(alnum, front, callId, after) == Filter(front, after, Some(callId))
    ensures var last := history[|history| - 1];
            Transcribed(alnum, last, callId) && FromDict(ToDict(last)).Some? ==> IsOwn(last, callId)
  {
    var front, last := history[..|history| - 1], history[|history| - 1];
    assert last in history && forall e :: e in front ==> e in history;
    assert forall i :: 0 <= i < |front| ==> front[i] == history[i];
    RestoredIsOwn(alnum, front, callId, after);
  }

  /** The last event in memory replaces whatever the file restores of it. */
  lemma LastReplaces(own: seq<Event>, last: Event)
    ensures UpsertAll([], own + [last]) == Upsert(UpsertAll([], own), last)
    ensures FromDict(ToDict(last)).Some? ==>
              var restored := FromDict(ToDict(last)).value;
              Upsert(UpsertAll([], own + [restored]), last) == Upsert(UpsertAll([], own), last)
  {
    assert (own + [last])[..|own|] == own;
    if FromDict(ToDict(last)).Some? {
      var restored := FromDict(ToDict(last)).value;
      assert (own + [restored])[..|own|] == own;
      UpsertTwice(UpsertAll([], own), restored, last);
    }
  }

  /** Another call's event that reads back is returned by a read with room for it. */
  lemma ForeignReturned(alnum: Alnum, history: seq<Event>, callId: string, e: Event, whole: seq<Event>)
    requires DistinctIds(history) && e in history && Transcribed(alnum, e, callId) && !IsOwn(e, callId)
    requires FromDict(ToDict(e)).Some?
    requires whole == Read(alnum, history, 0, callId, e.id - 1, Room(alnum, history, callId, e.id - 1))
    ensures FromDict(ToDict(e)).value in whole
  {
    var after, x := e.id - 1, FromDict(ToDict(e)).value;
    var sorted, kept := Sorted(alnum, history, callId, after), Filter(history, after, Some(callId));
    WholeRead(alnum, history, callId, after, whole);
    RestoredMembers(alnum, history, callId, after);
    SortedExactly(alnum, history, callId, after);
    FilterIsSelection(history, after, Some(callId));
    forall o | o in kept ensures o.id != x.id {
      DifferentIds(history, o, e);
    }
    UpsertAllKeeps(sorted, kept, x);
  }

  lemma ForeignReadsMore(alnum: Alnum, history: seq<Event>, callId: string, e: Event, whole: seq<Event>)
    requires DistinctIds(history) && e in history && !IsOwn(e, callId) && FromDict(ToDict(e)).Some?
    requires FromDict(ToDict(e)).value in whole
    requires whole == Read(alnum, history, 0, callId, e.id - 1, Room(alnum, history, callId, e.id - 1))
    ensures !ReadsOwn(alnum, history, 0, callId, e.id - 1, Room(alnum, history, callId, e.id - 1))
  {
    var after, x := e.id - 1, FromDict(ToDict(e)).value;
    var own, limit := Filter(history, after, Some(callId)), Room(alnum, history, callId, after);
    FilterIsSelection(history, after, Some(callId));
    UpsertAllFrom([], own);
    FirstMembers(UpsertAll([], own), limit);
    if x in own {
      DifferentIds(history, x, e);
    }
  }

  /**
   Whatever is retained, every read of a call returns exactly the call's own
   events, if and only if compaction is unseen and nothing that another call put
   into the file can be read back.
   */
  lemma OwnEventsExactly(alnum: Alnum, history: seq<Event>, callId: string)
    requires DistinctIds(history) && callId != "system"
    ensures (forall bound, after, limit :: ReadsOwn(alnum, history, bound, callId, after, limit)) <==>
            Retrievable(history, callId) && FileOfItsOwn(alnum, history, callId)
  {
    if Retrievable(history, callId) && FileOfItsOwn(alnum, history, callId) {
      forall bound, after, limit ensures ReadsOwn(alnum, history, bound, callId, after, limit) {
        ReadIsMerged(alnum, history, bound, callId, after, limit);
        MergedIsOwn(alnum, history, callId, after);
      }
    }
    if !Retrievable(history, callId) {
      CompactionSeen(alnum, history, callId);
      var after, limit :| !BoundUnseen(alnum, history, 1, callId, after, limit);
      assert !ReadsOwn(alnum, history, 1, callId, after, limit) || !ReadsOwn(alnum, history, 0, callId, after, limit);
    }
    if !FileOfItsOwn(alnum, history, callId) {
      var e :| e in history && Transcribed(alnum, e, callId) && !IsOwn(e, callId) && FromDict(ToDict(e)).Some?;
      var whole := Read(alnum, history, 0, callId, e.id - 1, Room(alnum, history, callId, e.id - 1));
      ForeignReturned(alnum, history, callId, e, whole);
      ForeignReadsMore(alnum, history, callId, e, whole);
    }
  }

  /**
   With call ids of letters, digits, dashes and underscores only, every read of a
   call returns exactly its own events, for every history that compaction may cut unseen.
   */
  lemma PlainCallsReadTheirOwn(
    alnum: Alnum, history: seq<Event>, bound: nat, callId: string, after: int, limit: nat)
    requires DistinctIds(history) && callId != "system" && Retrievable(history, callId)
    requires Plain(alnum, callId) && forall e :: e in history ==> Plain(alnum, e.callId)
    ensures Read(alnum, history, bound, callId, after, limit) ==
            First(UpsertAll([], Filter(history, after, Some(callId))), limit)
  {
    forall e | e in history && Transcribed(alnum, e, callId) ensures IsOwn(e, callId) {
      PlainIdsAreApart(alnum, e.callId, callId);
    }
    assert FileOfItsOwn(alnum, history, callId);
    OwnEventsExactly(alnum, history, callId);
    assert ReadsOwn(alnum, history, bound, callId, after, limit);
  }

  /** Sharing does happen: a read of one call returns the other call's event. */
  lemma ForeignEventIsRead(alnum: Alnum, kind: string, timestamp: string, data: Data)
    requires !alnum('/') && alnum('a') && alnum('b') && Trimmed(kind) && Trimmed(timestamp)
    ensures var foreign := Event(1, "a/b", kind, timestamp, data);
            "a_b" != "a/b" && foreign in Read(alnum, [foreign], 0, "a_b", 0, Room(alnum, [foreign], "a_b", 0))
  {
    var foreign := Event(1, "a/b", kind, timestamp, data);
    assert SafeName(alnum, "a/b") == "a_b" == SafeName(alnum, "a_b");
    assert "a/b"[1] != "a_b"[1] && "a/b"[0] != "s"[0] && "a_b"[0] != "s"[0];
    RoundTrip(foreign);
    var room := Room(alnum, [foreign], "a_b", 0);
    ForeignReturned(alnum, [foreign], "a_b", foreign, Read(alnum, [foreign], 0, "a_b", 0, room));
  }
}
