/**
 Runs in which a stale response is spoken: the caller began a new turn, but its
 event is out of reach of the scan for newer activity.
 */
module ResponseGateLimits {
  import opened Common
  import opened Events
  import Playback
  import opened ResponseGate
  import opened ResponseGateRuns

  // ------------------------------------------------------------ out of reach

  /** Nothing retained is caller activity: the turn's event has been compacted away. */
  ghost predicate QuietWindow(g: Gate) {
    1 <= g.bound && forall e :: e in Window(g.history, g.bound) ==> !IsActivity(e)
  }

  /** Everything is retained, for `room` more events, and the scan ends before the turn's event. */
  ghost predicate Crowded(g: Gate, room: nat) {
    && (g.bound == 0 || |g.history| + room <= g.bound)
    && SCAN_LIMIT <= |Filter(g.history, 0, Some(g.callId))|
    && forall e :: e in Scan(g) ==> !IsActivity(e)
  }

  ghost predicate Blind(g: Gate, room: nat) {
    QuietWindow(g) || Crowded(g, room)
  }

  lemma BlindScansNothing(g: Gate, room: nat)
    requires Blind(g, room)
    ensures forall i :: 0 <= i < |Scan(g)| ==> !IsActivity(Scan(g)[i])
  {
    forall i | 0 <= i < |Scan(g)| ensures !IsActivity(Scan(g)[i]) {
      var p := ScannedIsReached(g, i);
      var w := Window(g.history, g.bound);
      assert w[p - RetainedFrom(g)] in w;
    }
  }

  lemma BlindSeesNothing(g: Gate, room: nat, responseTo: Option<int>)
    requires Blind(g, room)
    ensures !HasNewerUserActivity(g, responseTo)
  {
    BlindScansNothing(g, room);
  }

  /** The same gate, as far as the scan is concerned, with one more event. */
  ghost predicate OneMore(g: Gate, h: Gate, e: Event) {
    h.history == g.history + [e] && h.bound == g.bound && h.callId == g.callId
  }

  lemma CrowdedStays(g: Gate, h: Gate, e: Event, room: nat)
    requires OneMore(g, h, e) && Crowded(g, room + 1)
    ensures Crowded(h, room)
  {
    assert (g.history + [e])[..|g.history|] == g.history;
    assert Window(h.history, h.bound) == h.history && Window(g.history, g.bound) == g.history;
    assert Scan(h) == Scan(g);
  }

  lemma QuietStays(g: Gate, h: Gate, e: Event)
    requires OneMore(g, h, e) && QuietWindow(g) && !IsActivity(e)
    ensures QuietWindow(h)
  {
    var w, w' := Window(g.history, g.bound), Window(h.history, h.bound);
    forall i | 0 <= i < |w'| - 1 ensures w'[i] in w {
      assert w'[i] == w[i + |w| - (|w'| - 1)];
    }
  }

  lemma BlindStays(g: Gate, h: Gate, e: Event, room: nat)
    requires OneMore(g, h, e) && Blind(g, room + 1) && !IsActivity(e)
    ensures Blind(h, room)
  {
    if QuietWindow(g) {
      QuietStays(g, h, e);
    } else {
      CrowdedStays(g, h, e, room);
    }
  }

  // ------------------------------------------------------- speaking all the same

  /** A request `id` of this session that an ordinary answer may answer, and a turn `t` begun after it. */
  ghost predicate Outdated(g: Gate, id: int, t: int) {
    && !g.recording && g.pending == [] && id in g.requestGenerations && id !in g.startupIds
    && id < t < g.nextId && t in g.trace.turns
    && forall e :: e in g.history && e.id == id && "reason" in e.data ==> e.data["reason"] != Text("colleague_result")
  }

  lemma NotColleague(g: Gate, id: int, t: int)
    requires Outdated(g, id, t)
    ensures !ShouldDefer(g, Some(id))
  {
    var e := Find(Window(g.history, g.bound), id);
    assert e.Some? ==> e.value in g.history;
  }

  lemma NoteKeepsOutdated(g: Gate, id: int, t: int, kind: string, reason: string, now: string)
    requires Outdated(g, id, t)
    ensures Outdated(Note(g, kind, reason, now), id, t)
    ensures OneMore(g, Note(g, kind, reason, now), Event(g.nextId, g.callId, kind, now, map["reason" := Text(reason)]))
  {
  }

  function Answer(id: int): Response {
    Response("answer", Some(id), None, false)
  }

  /** An ordinary submission answering `id`, in this stage and with nothing queued yet. */
  ghost predicate Ordinary(g: Gate, s: nat, id: int, stage: Stage) {
    && s in g.inflight && g.inflight[s].response == Answer(id) && g.inflight[s].stage == stage
    && !g.inflight[s].startup && !g.inflight[s].persistent && !g.inflight[s].queued
  }

  lemma AdmitsBlindly(g: Gate, s: nat, id: int, t: int, room: nat, now: string)
    requires Outdated(g, id, t) && Blind(g, room + 1) && Ordinary(g, s, id, Arrived)
    ensures var h := Next(g, OnAdmit(s), now);
            Outdated(h, id, t) && Blind(h, room) && Ordinary(h, s, id, Admitted)
  {
    var received := Received(g, Answer(id), now);
    NoteKeepsOutdated(g, id, t, "agent_response_received", "", now);
    BlindStays(g, received, received.history[|g.history|], room);
    BlindSeesNothing(received, room, Some(id));
    NotColleague(received, id, t);
    assert Cleared(received, Answer(id), now) == received;
    var sub := Submission(Answer(id), false, false, 0, false, Admitted);
    assert Admit(g, s, now) == AdmitWith(received, s, sub, false, HasActivePersistent(received), false, now);
    assert Admit(g, s, now) == Set(received, s, sub);
    SameReach(received, Set(received, s, sub), room);
  }

  lemma SameReach(g: Gate, h: Gate, room: nat)
    requires h.history == g.history && h.bound == g.bound && h.callId == g.callId && Blind(g, room)
    ensures Blind(h, room)
  {
    assert Scan(h) == Scan(g);
  }

  lemma ProceedsBlindly(g: Gate, s: nat, id: int, t: int, room: nat, now: string)
    requires Outdated(g, id, t) && Blind(g, room + 1) && Ordinary(g, s, id, Admitted)
    ensures var h := Next(g, OnProceed(s), now);
            Outdated(h, id, t) && Blind(h, room) && Ordinary(h, s, id, Speaking)
  {
    var noted := Note(g, "tts_started", "", now);
    BlindSeesNothing(g, room + 1, Some(id));
    NoteKeepsOutdated(g, id, t, "tts_started", "", now);
    BlindStays(g, noted, noted.history[|g.history|], room);
    SameReach(noted, Proceed(g, s, now), room);
  }

  lemma SpeaksBlindly(g: Gate, s: nat, id: int, room: nat, audio: seq<Playback.Sample>)
    requires !g.recording && Blind(g, room) && Ordinary(g, s, id, Speaking)
    ensures Enqueues(g, OnChunk(s, audio), s)
  {
    BlindSeesNothing(g, room, Some(id));
  }

  ghost predicate Reaches(g: Gate, moves: seq<Timed>, end: Gate) {
    Run(g, moves) && After(g, moves) == end
  }

  lemma OneMove(g: Gate, moves: seq<Timed>, h: Gate, m: Timed)
    requires Reaches(g, moves, h) && Possible(h, m.move)
    ensures Reaches(g, moves + [m], Next(h, m.move, m.now))
  {
    assert (moves + [m])[..|moves|] == moves;
  }

  /** A stale answer to `id` is about to be spoken, although the turn `t` began after its request. */
  ghost predicate Speaks(end: Gate, id: int, t: int, audio: seq<Playback.Sample>) {
    && Enqueues(end, OnChunk(0, audio), 0) && Ordinary(end, 0, id, Speaking)
    && id in end.requestGenerations && t in end.trace.turns && id < t
  }

  lemma StaleAnswerSpeaks(
    g: Gate, moves: seq<Timed>, start: Gate, id: int, t: int, audio: seq<Playback.Sample>, now: string)
    returns (longer: seq<Timed>, end: Gate)
    requires Reaches(g, moves, start) && 0 !in start.inflight && Outdated(start, id, t) && Blind(start, 2)
    ensures Reaches(g, longer, end) && Speaks(end, id, t, audio)
  {
    var arrived := Next(start, OnArrive(0, Answer(id)), now);
    OneMove(g, moves, start, Timed(OnArrive(0, Answer(id)), now));
    longer := moves + [Timed(OnArrive(0, Answer(id)), now)];
    SameReach(start, arrived, 2);
    AdmitsBlindly(arrived, 0, id, t, 1, now);
    longer, end := SubmittedSpeaks(g, longer, arrived, id, t, audio, now);
  }

  lemma SubmittedSpeaks(
    g: Gate, moves: seq<Timed>, arrived: Gate, id: int, t: int, audio: seq<Playback.Sample>, now: string)
    returns (longer: seq<Timed>, end: Gate)
    requires Reaches(g, moves, arrived) && Ordinary(arrived, 0, id, Arrived)
    requires var h := Next(arrived, OnAdmit(0), now);
             Outdated(h, id, t) && Blind(h, 1) && Ordinary(h, 0, id, Admitted)
    ensures Reaches(g, longer, end) && Speaks(end, id, t, audio)
  {
    OneMove(g, moves, arrived, Timed(OnAdmit(0), now));
    longer := moves + [Timed(OnAdmit(0), now)];
    var admitted := Next(arrived, OnAdmit(0), now);
    ProceedsBlindly(admitted, 0, id, t, 0, now);
    OneMove(g, longer, admitted, Timed(OnProceed(0), now));
    longer, end := longer + [Timed(OnProceed(0), now)], Next(admitted, OnProceed(0), now);
    SpeaksBlindly(end, 0, id, 0, audio);
  }

  // --------------------------------------------------------- the two ways to get there

  /** The gate after a request, and a caller turn that begins and ends after it. */
  function Turned(g: Gate, now: string): Gate {
    SpeechFinished(SpeechStarted(EmitRequest(g, "speech", now), false, now), now)
  }

  lemma TurnRun(g: Gate, now: string) returns (moves: seq<Timed>)
    ensures Reaches(g, moves, Turned(g, now))
  {
    moves := [Timed(OnRequest("speech"), now)];
    OneMove(g, [], g, moves[0]);
    assert [] + moves == moves;
    var asked := EmitRequest(g, "speech", now);
    OneMove(g, moves, asked, Timed(OnSpeechStarted(false), now));
    moves := moves + [Timed(OnSpeechStarted(false), now)];
    OneMove(g, moves, SpeechStarted(asked, false, now), Timed(OnSpeechFinished, now));
    moves := moves + [Timed(OnSpeechFinished, now)];
  }

  /** A request makes itself answerable; the turn after it outdates it. */
  lemma TurnOutdates(g: Gate, now: string)
    requires Sound(g) && !g.recording && g.pending == [] && g.startupIds == {}
    ensures Outdated(Turned(g, now), g.nextId, g.nextId + 1)
    ensures Turned(g, now).inflight == g.inflight && Turned(g, now).bound == g.bound
  {
    var asked := EmitRequest(g, "speech", now);
    assert forall e :: e in asked.history && e.id == g.nextId ==> e.data == map["reason" := Text("speech")];
    var started := SpeechStarted(asked, false, now);
    assert started.history == asked.history + [started.history[|asked.history|]];
  }

  lemma TurnBegins(callId: string, bound: nat, history: seq<Event>, now: string)
    ensures var turned, id := Turned(Start(callId, bound, history), now), NextId(history);
            Outdated(turned, id, id + 1) && turned.inflight == map[] && turned.bound == bound
  {
    StartSound(callId, bound, history);
    TurnOutdates(Start(callId, bound, history), now);
  }

  /** The gate after so many events of other calls. */
  function Chattered(g: Gate, n: nat, now: string): Gate {
    if n == 0 then g else OtherEvent(Chattered(g, n - 1, now), "another call", "metrics", map[], now)
  }

  lemma {:induction false} ChatterRun(g: Gate, moves: seq<Timed>, h: Gate, n: nat, now: string)
    returns (longer: seq<Timed>)
    requires Reaches(g, moves, h)
    ensures Reaches(g, longer, Chattered(h, n, now))
  {
    longer := moves;
    if n > 0 {
      longer := ChatterRun(g, moves, h, n - 1, now);
      var m := Timed(OnOtherEvent("another call", "metrics", map[]), now);
      OneMove(g, longer, Chattered(h, n - 1, now), m);
      longer := longer + [m];
    }
  }

  ghost predicate QuietTail(g: Gate, n: nat) {
    n <= |g.history| && forall i :: |g.history| - n <= i < |g.history| ==> !IsActivity(g.history[i])
  }

  lemma ChatterStep(g: Gate, id: int, t: int, n: nat, now: string)
    requires Outdated(g, id, t) && QuietTail(g, n)
    ensures var h := OtherEvent(g, "another call", "metrics", map[], now);
            Outdated(h, id, t) && QuietTail(h, n + 1)
  {
  }

  lemma {:induction false} ChatterQuiets(g: Gate, id: int, t: int, n: nat, now: string)
    requires Outdated(g, id, t)
    ensures Outdated(Chattered(g, n, now), id, t) && QuietTail(Chattered(g, n, now), n)
    ensures Chattered(g, n, now).inflight == g.inflight && Chattered(g, n, now).bound == g.bound
  {
    if n > 0 {
      ChatterQuiets(g, id, t, n - 1, now);
      ChatterStep(Chattered(g, n - 1, now), id, t, n - 1, now);
    }
  }

  lemma QuietTailIsWindow(g: Gate)
    requires 1 <= g.bound && QuietTail(g, g.bound)
    ensures QuietWindow(g)
  {
  }

  /**
   For every bound of at least one there is a run in which a caller turn begins
   after a request, as many events of other calls follow as the store retains, and
   the answer to the request is spoken although it is stale.
   */
  lemma EvictedTurnIsMissed(callId: string, bound: nat, history: seq<Event>, audio: seq<Playback.Sample>, now: string)
    returns (moves: seq<Timed>, end: Gate)
    requires 1 <= bound
    ensures Reaches(Start(callId, bound, history), moves, end)
    ensures Speaks(end, NextId(history), NextId(history) + 1, audio)
  {
    var g, id := Start(callId, bound, history), NextId(history);
    TurnBegins(callId, bound, history, now);
    ChatterQuiets(Turned(g, now), id, id + 1, bound, now);
    var quiet := Chattered(Turned(g, now), bound, now);
    QuietTailIsWindow(quiet);
    moves := TurnRun(g, now);
    moves := ChatterRun(g, moves, Turned(g, now), bound, now);
    moves, end := StaleAnswerSpeaks(g, moves, quiet, id, id + 1, audio, now);
  }

  /**
   Nothing need be evicted: in a call that already has 200 retained events without
   caller activity, the answer is spoken as soon as the turn is over.
   */
  lemma CrowdedOutTurnIsMissed(
    callId: string, bound: nat, history: seq<Event>, audio: seq<Playback.Sample>, now: string)
    returns (moves: seq<Timed>, end: Gate)
    requires bound == 0 || |history| + 5 <= bound
    requires SCAN_LIMIT <= |Filter(history, 0, Some(callId))|
    requires forall e :: e in history ==> !IsActivity(e)
    ensures Reaches(Start(callId, bound, history), moves, end)
    ensures Speaks(end, NextId(history), NextId(history) + 1, audio)
  {
    var g := Start(callId, bound, history);
    StartsCrowded(callId, bound, history);
    TurnStaysCrowded(g, now);
    TurnBegins(callId, bound, history, now);
    moves, end := CrowdedAnswerSpeaks(g, Turned(g, now), NextId(history), audio, now);
  }

  lemma CrowdedAnswerSpeaks(g: Gate, turned: Gate, id: int, audio: seq<Playback.Sample>, now: string)
    returns (moves: seq<Timed>, end: Gate)
    requires turned == Turned(g, now) && turned.inflight == map[]
    requires Outdated(turned, id, id + 1) && Crowded(turned, 2)
    ensures Reaches(g, moves, end) && Speaks(end, id, id + 1, audio)
  {
    moves := TurnRun(g, now);
    moves, end := StaleAnswerSpeaks(g, moves, turned, id, id + 1, audio, now);
  }

  lemma StartsCrowded(callId: string, bound: nat, history: seq<Event>)
    requires bound == 0 || |history| + 5 <= bound
    requires SCAN_LIMIT <= |Filter(history, 0, Some(callId))|
    requires forall e :: e in history ==> !IsActivity(e)
    ensures Crowded(Start(callId, bound, history), 5)
  {
    var filtered, scan := Filter(history, 0, Some(callId)), Scan(Start(callId, bound, history));
    assert Window(history, bound) == history;
    FilterIsSelection(history, 0, Some(callId));
    assert forall i :: 0 <= i < |scan| ==> scan[i] == filtered[i] && filtered[i] in filtered;
  }

  lemma TurnStaysCrowded(g: Gate, now: string)
    requires Crowded(g, 5)
    ensures Crowded(Turned(g, now), 2)
  {
    var asked := EmitRequest(g, "speech", now);
    var started := SpeechStarted(asked, false, now);
    CrowdedStays(g, asked, asked.history[|g.history|], 4);
    CrowdedStays(asked, started, started.history[|asked.history|], 3);
    CrowdedStays(started, Turned(g, now), Turned(g, now).history[|started.history|], 2);
  }
}
