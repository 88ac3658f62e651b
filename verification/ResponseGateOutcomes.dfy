/**
 What each step of the response gate does, in terms of what is queued, in flight,
 remembered and noted, for every gate the steps can meet.
 */
module ResponseGateOutcomes {
  import opened Common
  import opened Strings
  import opened Events
  import opened Playback
  import opened ResponseGate
  import opened ResponseGateRuns

  // ------------------------------------------------------- what a caller can observe

  predicate HasKind(m: Meta, kind: string) {
    m.kind.Some? && Strip(m.kind.value) == kind
  }

  /** A pending piece is of this kind. */
  predicate Playing(g: Gate, kind: string) {
    exists i :: 0 <= i < |g.pending| && HasKind(g.pending[i].data, kind)
  }

  /** The request is retained, and was made because a colleague has an answer. */
  predicate AsksColleague(g: Gate, responseTo: Option<int>) {
    && responseTo.Some? && Find(Window(g.history, g.bound), responseTo.value).Some?
    && var e := Find(Window(g.history, g.bound), responseTo.value).value;
       e.kind == "agent_response_requested" && "reason" in e.data && e.data["reason"] == Text("colleague_result")
  }

  /** An acknowledgement, a colleague's result, or the answer to a colleague's request is being played. */
  predicate PersistentPlaying(g: Gate) {
    || Playing(g, "call_control_ack") || Playing(g, "colleague_result")
    || exists i :: 0 <= i < |g.pending| && AsksColleague(g, g.pending[i].data.responseTo)
  }

  /** Newer caller activity than the request is within reach. */
  ghost predicate Outdated(g: Gate, responseTo: Option<int>) {
    responseTo.Some? && !NoneNewer(g, responseTo.value)
  }

  /** May be spoken over the caller: the answer to the greeting, and acknowledgements. */
  predicate Exempt(sub: Submission) {
    sub.startup || sub.response.kind == Some("call_control_ack")
  }

  /** The last thing noted. */
  predicate Noted(g: Gate, kind: string, reason: string) {
    g.history != [] &&
    var e := g.history[|g.history| - 1];
    e.kind == kind && e.callId == g.callId && e.data == map["reason" := Text(reason)]
  }

  /** The submission is gone, and the log says why. */
  predicate Dropped(g: Gate, s: nat, reason: string) {
    s !in g.inflight && Noted(g, "agent_response_dropped", reason)
  }

  ghost predicate OthersInFlight(g: Gate, h: Gate, s: nat) {
    forall x :: x != s ==>
      (x in h.inflight <==> x in g.inflight) && (x in g.inflight ==> h.inflight[x] == g.inflight[x])
  }

  lemma OutdatedIsSeen(g: Gate, responseTo: Option<int>)
    ensures HasNewerUserActivity(g, responseTo) <==> Outdated(g, responseTo)
  {
    if responseTo.Some? {
      NewerSeenExactly(g, responseTo.value);
    }
  }

  lemma PlayingIsActive(g: Gate, kind: string)
    requires kind != ""
    ensures Plays(g.pending, kind) <==> Playing(g, kind)
  {
    if i :| 0 <= i < |g.pending| && ActiveKind(g.pending[i].data) == kind {
      assert HasKind(g.pending[i].data, kind);
    }
    if i :| 0 <= i < |g.pending| && HasKind(g.pending[i].data, kind) {
      assert ActiveKind(g.pending[i].data) == kind;
    }
  }

  lemma PersistentIsActive(g: Gate)
    ensures HasActivePersistent(g) <==> PersistentPlaying(g)
  {
    PlayingIsActive(g, "call_control_ack");
    PlayingIsActive(g, "colleague_result");
    if i :| 0 <= i < |g.pending| && ShouldDefer(g, g.pending[i].data.responseTo) {
      assert AsksColleague(g, g.pending[i].data.responseTo);
    }
    if i :| 0 <= i < |g.pending| && AsksColleague(g, g.pending[i].data.responseTo) {
      assert ShouldDefer(g, g.pending[i].data.responseTo);
    }
  }

  // ----------------------------------------------------------------- admission

  /** The gate when an arriving response is checked: its arrival is noted, and an acknowledgement has cut in. */
  predicate Entered(g: Gate, r: Response, h: Gate) {
    && h.startupIds == g.startupIds && h.callId == g.callId && h.bound == g.bound && h.recording == g.recording
    && h.generation == g.generation && h.inflight == g.inflight && h.last == g.last && h.resume == g.resume
    && |h.history| > |g.history| && h.history[..|g.history|] == g.history
    && h.history[|g.history|].kind == (if r.partial then "agent_response_partial" else "agent_response_received")
    && if r.kind == Some("call_control_ack") && Playing(g, "progress_ack") then
         && h.pending == [] && |h.history| == |g.history| + 2
         && Noted(h, "bot_playback_interrupted", "call_control_ack_priority")
       else
         h.pending == g.pending && |h.history| == |g.history| + 1
  }

  lemma EntersSo(g: Gate, r: Response, now: string)
    ensures Entered(g, r, Cleared(Received(g, r, now), r, now))
  {
    var received := Received(g, r, now);
    PlayingIsActive(received, "progress_ack");
    assert Playing(received, "progress_ack") <==> Playing(g, "progress_ack") by {
      PlayingIsActive(g, "progress_ack");
    }
  }

  /** What an arriving submission is: judged once its arrival is noted, before anything is cut. */
  predicate Arrives(g: Gate, r: Response, sub: Submission) {
    && sub.response == r && sub.stage == Admitted && !sub.queued
    && (sub.startup <==> r.responseTo.Some? && r.responseTo.value in g.startupIds)
    && (sub.persistent <==>
          r.kind == Some("call_control_ack") || r.kind == Some("colleague_result") || AsksColleague(g, r.responseTo))
  }

  /** Admission passes `sub` on exactly if none of its checks fails; the first that does is noted as the reason. */
  ghost predicate Judges(h: Gate, after: Gate, s: nat, sub: Submission, second: bool, busy: bool, stale: bool) {
    var ordinary := !sub.startup && !sub.persistent;
    && OthersInFlight(h, after, s) && after.pending == h.pending && after.bound == h.bound
    && (s in after.inflight <==> !second && (ordinary ==> !busy && !stale))
    && (s in after.inflight ==> after.inflight[s] == sub && after.history == h.history)
    && (second ==> Dropped(after, s, "duplicate_active_progress_ack"))
    && (!second && ordinary && busy ==> Dropped(after, s, "active_colleague_result_playback"))
    && (!second && ordinary && !busy && stale ==> Dropped(after, s, STALE))
  }

  lemma JudgesSo(h: Gate, s: nat, sub: Submission, second: bool, busy: bool, stale: bool, now: string)
    ensures Judges(h, AdmitWith(h, s, sub, second, busy, stale, now), s, sub, second, busy, stale)
  {
  }

  /**
   A submission is admitted if and only if it is no second progress message and,
   unless it answers the greeting or is persistent, no persistent answer is being
   played and no newer caller activity is within reach.
   */
  lemma AdmittedExactly(g: Gate, s: nat, now: string)
    requires InStage(g, s, Arrived)
    ensures var r, received := g.inflight[s].response, Received(g, g.inflight[s].response, now);
            var h := Cleared(received, r, now);
            var sub := Submission(r, IsStartup(received, r.responseTo), IsPersistent(received, r), 0, false, Admitted);
            && Entered(g, r, h) && Arrives(received, r, sub)
            && Judges(h, Next(g, OnAdmit(s), now), s, sub, r.kind == Some("progress_ack") && Playing(h, "progress_ack"),
                      PersistentPlaying(h), Outdated(h, r.responseTo))
  {
    var r, received := g.inflight[s].response, Received(g, g.inflight[s].response, now);
    var h := Cleared(received, r, now);
    var sub := Submission(r, IsStartup(received, r.responseTo), IsPersistent(received, r), 0, false, Admitted);
    EntersSo(g, r, now);
    PlayingIsActive(h, "progress_ack");
    PersistentIsActive(h);
    OutdatedIsSeen(h, r.responseTo);
    JudgesSo(h, s, sub, r.kind == Some("progress_ack") && Plays(h.pending, "progress_ack"),
             HasActivePersistent(h), HasNewerUserActivity(h, r.responseTo), now);
  }

  lemma SamePlaying(g: Gate, h: Gate)
    requires h.pending == g.pending && h.history == g.history && h.bound == g.bound
    ensures PersistentPlaying(h) <==> PersistentPlaying(g)
  {
    assert forall kind :: Playing(h, kind) <==> Playing(g, kind);
    assert forall responseTo :: AsksColleague(h, responseTo) <==> AsksColleague(g, responseTo);
  }

  lemma NotOverPersistent(h: Gate, after: Gate, s: nat, sub: Submission, second: bool, stale: bool)
    requires Judges(h, after, s, sub, second, PersistentPlaying(h), stale)
    ensures s in after.inflight && !after.inflight[s].startup && !after.inflight[s].persistent ==>
              !PersistentPlaying(after)
  {
    if s in after.inflight {
      SamePlaying(h, after);
    }
  }

  /** In every interleaving, no ordinary answer is admitted while a persistent one is being played. */
  lemma NoneAdmittedOverPersistent(
    callId: string, bound: nat, history: seq<Event>, moves: seq<Timed>, s: nat, now: string)
    requires Run(Start(callId, bound, history), moves)
    requires InStage(After(Start(callId, bound, history), moves), s, Arrived)
    ensures var after := Next(After(Start(callId, bound, history), moves), OnAdmit(s), now);
            s in after.inflight && !after.inflight[s].startup && !after.inflight[s].persistent ==>
              !PersistentPlaying(after)
  {
    var g := After(Start(callId, bound, history), moves);
    AdmitsNotOver(g, s, now);
  }

  lemma AdmitsNotOver(g: Gate, s: nat, now: string)
    requires InStage(g, s, Arrived)
    ensures var after := Next(g, OnAdmit(s), now);
            s in after.inflight && !after.inflight[s].startup && !after.inflight[s].persistent ==>
              !PersistentPlaying(after)
  {
    var r, received := g.inflight[s].response, Received(g, g.inflight[s].response, now);
    var h := Cleared(received, r, now);
    var sub := Submission(r, IsStartup(received, r.responseTo), IsPersistent(received, r), 0, false, Admitted);
    AdmittedExactly(g, s, now);
    NotOverPersistent(h, Next(g, OnAdmit(s), now), s, sub, r.kind == Some("progress_ack") && Playing(h, "progress_ack"),
                      Outdated(h, r.responseTo));
  }

  // ------------------------------------------------- from admission to synthesis

  /** An interrupt has come since the request, if it was made by this call. */
  predicate InterruptedSince(g: Gate, responseTo: Option<int>) {
    && responseTo.Some? && responseTo.value in g.requestGenerations
    && g.requestGenerations[responseTo.value] != g.generation
  }

  predicate Ordinary(sub: Submission) {
    !sub.startup && !sub.persistent
  }

  /** Nothing but this submission and the log has changed. */
  ghost predicate Apart(g: Gate, after: Gate, s: nat) {
    && OthersInFlight(g, after, s)
    && after.pending == g.pending && after.recording == g.recording && after.generation == g.generation
    && after.last == g.last && after.resume == g.resume && after.startupGuard == g.startupGuard
    && after.startupIds == g.startupIds && after.requestGenerations == g.requestGenerations
  }

  /** What the caller hears of `sub` is decided by its answer and by what it is. */
  predicate SameAnswer(sub: Submission, next: Submission) {
    next.response == sub.response && next.startup == sub.startup && next.persistent == sub.persistent
  }

  /** Where a submission stands after the look at the recording flag, if its request is `outdated`. */
  ghost predicate Synthesises(g: Gate, after: Gate, s: nat, outdated: bool)
    requires s in g.inflight
  {
    var sub := g.inflight[s];
    var interrupted := InterruptedSince(g, sub.response.responseTo);
    && Apart(g, after, s) && (s in after.inflight ==> SameAnswer(sub, after.inflight[s]))
    && (InStage(after, s, Deferred) <==> g.recording && !Exempt(sub))
    && (InStage(after, s, Speaking) <==>
          (!g.recording || Exempt(sub)) && !(Ordinary(sub) && interrupted && outdated))
    && (InStage(after, s, Deferred) ==> Noted(after, "agent_response_deferred", "caller_is_speaking"))
    && (InStage(after, s, Speaking) ==> !after.inflight[s].queued)
    && (InStage(after, s, Speaking) ==> (after.inflight[s].requestGeneration != after.generation <==> interrupted))
    && (!InStage(after, s, Deferred) && !InStage(after, s, Speaking) ==>
          Dropped(after, s, STALE))
  }

  lemma DefersSo(g: Gate, s: nat, newer: bool, now: string)
    requires InStage(g, s, Admitted) && g.recording && !Exempt(g.inflight[s])
    ensures Synthesises(g, ProceedWith(g, s, newer, now), s, newer)
  {
  }

  lemma BeginsSo(g: Gate, s: nat, newer: bool, now: string)
    requires InStage(g, s, Admitted) && (!g.recording || Exempt(g.inflight[s]))
    ensures Synthesises(g, ProceedWith(g, s, newer, now), s, newer)
  {
    if Ordinary(g.inflight[s]) && InterruptedSince(g, g.inflight[s].response.responseTo) && newer {
      DropDrops(g, s, STALE, now);
    }
  }

  lemma SynthesisesSo(g: Gate, s: nat, newer: bool, now: string)
    requires InStage(g, s, Admitted)
    ensures Synthesises(g, ProceedWith(g, s, newer, now), s, newer)
  {
    if g.recording && !Exempt(g.inflight[s]) {
      DefersSo(g, s, newer, now);
    } else {
      BeginsSo(g, s, newer, now);
    }
  }

  /**
   Synthesis begins if the caller is silent or need not be, unless the answer is
   ordinary, an interrupt has come since its request and newer activity is within
   reach: then it is dropped.  While the caller speaks, others wait.
   */
  lemma SynthesisExactly(g: Gate, s: nat, now: string)
    requires InStage(g, s, Admitted)
    ensures Synthesises(g, Next(g, OnProceed(s), now), s, Outdated(g, g.inflight[s].response.responseTo))
  {
    OutdatedIsSeen(g, g.inflight[s].response.responseTo);
    SynthesisesSo(g, s, HasNewerUserActivity(g, g.inflight[s].response.responseTo), now);
  }

  /** Where it stands after the wait. */
  ghost predicate Wakes(g: Gate, after: Gate, s: nat, outdated: bool)
    requires s in g.inflight
  {
    var sub := g.inflight[s];
    && Apart(g, after, s)
    && (s in after.inflight <==> !g.recording && (sub.persistent || !outdated))
    && (s in after.inflight ==> InStage(after, s, Arrived) && after.inflight[s].response == sub.response)
    && (s in after.inflight ==> after.history == g.history)
    && (s !in after.inflight ==> Dropped(after, s, "caller_is_speaking"))
  }

  lemma WakesSo(g: Gate, s: nat, newer: bool, now: string)
    requires InStage(g, s, Deferred)
    ensures Wakes(g, WakeWith(g, s, newer, now), s, newer)
  {
  }

  /**
   After the wait a submission starts over if the caller has fallen silent and it
   is persistent or no newer activity is within reach; else it is dropped.
   */
  lemma WokenExactly(g: Gate, s: nat, now: string)
    requires InStage(g, s, Deferred)
    ensures Wakes(g, Next(g, OnWakeDeferred(s), now), s, Outdated(g, g.inflight[s].response.responseTo))
  {
    OutdatedIsSeen(g, g.inflight[s].response.responseTo);
    WakesSo(g, s, HasNewerUserActivity(g, g.inflight[s].response.responseTo), now);
  }

  // -------------------------------------------------------------------- chunks

  /** The chunk is queued behind everything pending, as part of this answer. */
  ghost predicate Queues(g: Gate, after: Gate, s: nat, audio: seq<Sample>)
    requires s in g.inflight
  {
    var r := g.inflight[s].response;
    && OthersInFlight(g, after, s) && after.recording == g.recording && after.generation == g.generation
    && after.pending == g.pending + [Piece(audio, true, Meta(r.responseTo, r.kind))]
    && s in after.inflight && after.inflight[s] == g.inflight[s].(queued := true, stage := Speaking)
    && Remembers(g, after, g.inflight[s])
  }

  /** What is remembered of a queued chunk: a persistent answer for later, an ordinary one instead of any. */
  predicate Remembers(g: Gate, after: Gate, sub: Submission) {
    var r := sub.response;
    && after.last == (if sub.persistent then Some(Spoken(r.text, r.responseTo, r.kind)) else g.last)
    && after.resume == (if sub.persistent || sub.queued then g.resume else None)
    && (after.startupGuard <==> g.startupGuard || (sub.startup && g.recording))
    && (after.history == g.history <==> sub.queued)
    && (!sub.queued ==> Noted(after, "agent_response_queued", ""))
  }

  /** The chunk waits for the caller to fall silent. */
  ghost predicate Holds(g: Gate, after: Gate, s: nat, audio: seq<Sample>)
    requires s in g.inflight
  {
    && Apart(g, after, s) && InStage(after, s, Holding(audio)) && SameAnswer(g.inflight[s], after.inflight[s])
    && Noted(after, "agent_response_deferred", "caller_started_speaking_during_tts")
  }

  ghost predicate Drops(g: Gate, after: Gate, s: nat, reason: string) {
    Apart(g, after, s) && Dropped(after, s, reason)
  }

  lemma SpeakQueues(g: Gate, s: nat, audio: seq<Sample>, now: string)
    requires s in g.inflight
    ensures Queues(g, SpeakChunk(g, s, audio, now), s, audio)
  {
  }

  lemma WaitHolds(g: Gate, s: nat, audio: seq<Sample>, now: string)
    requires s in g.inflight
    ensures Holds(g, Judged(g, s, Wait, audio, now), s, audio)
  {
  }

  lemma DropDrops(g: Gate, s: nat, reason: string, now: string)
    ensures Drops(g, Drop(g, s, reason, now), s, reason)
  {
  }

  lemma OneReason(g: Gate, after: Gate, s: nat, a: string, b: string)
    requires Drops(g, after, s, a) && Drops(g, after, s, b)
    ensures a == b
  {
    assert after.history[|after.history| - 1].data["reason"] == Text(a);
  }

  const STALE := "stale_response_after_new_caller_speech"
  const CUT := "caller_started_speaking_during_tts_or_after_request"

  /** Each verdict has an outcome of its own. */
  lemma VerdictShows(g: Gate, s: nat, verdict: Verdict, audio: seq<Sample>, now: string)
    requires s in g.inflight
    ensures var after := Judged(g, s, verdict, audio, now);
            && (Queues(g, after, s, audio) <==> verdict.Speak?) && (Holds(g, after, s, audio) <==> verdict.Wait?)
            && (Drops(g, after, s, STALE) <==> verdict.Stale?) && (Drops(g, after, s, CUT) <==> verdict.Refuse?)
  {
    match verdict
    case Speak => SpeakQueues(g, s, audio, now);
    case Wait => WaitHolds(g, s, audio, now);
    case Stale => StaleShows(g, s, audio, now);
    case Refuse => CutShows(g, s, audio, now);
  }

  lemma StaleShows(g: Gate, s: nat, audio: seq<Sample>, now: string)
    requires s in g.inflight
    ensures var after := Drop(g, s, STALE, now);
            Drops(g, after, s, STALE) && !Drops(g, after, s, CUT) && !Queues(g, after, s, audio) &&
            !Holds(g, after, s, audio)
  {
    DropDrops(g, s, STALE, now);
    if Drops(g, Drop(g, s, STALE, now), s, CUT) {
      OneReason(g, Drop(g, s, STALE, now), s, STALE, CUT);
    }
  }

  lemma CutShows(g: Gate, s: nat, audio: seq<Sample>, now: string)
    requires s in g.inflight
    ensures var after := Drop(g, s, CUT, now);
            Drops(g, after, s, CUT) && !Drops(g, after, s, STALE) && !Queues(g, after, s, audio) &&
            !Holds(g, after, s, audio)
  {
    DropDrops(g, s, CUT, now);
    if Drops(g, Drop(g, s, CUT, now), s, STALE) {
      OneReason(g, Drop(g, s, CUT, now), s, STALE, CUT);
    }
  }

  /**
   A chunk is queued if and only if its answer is not both ordinary and outdated
   and is exempt, or finds the caller silent and is the first of its answer or
   uninterrupted.  The first chunk of an answer that finds the caller speaking is
   held.  Otherwise the answer is dropped.
   */
  lemma ChunkQueuedExactly(g: Gate, s: nat, audio: seq<Sample>, now: string)
    requires InStage(g, s, Speaking)
    ensures var sub, after := g.inflight[s], Next(g, OnChunk(s, audio), now);
            var stale := Ordinary(sub) && Outdated(g, sub.response.responseTo);
            var current := sub.requestGeneration == g.generation;
            && (Queues(g, after, s, audio) <==> !stale && (Exempt(sub) || (!g.recording && (current || !sub.queued))))
            && (Holds(g, after, s, audio) <==> !stale && !Exempt(sub) && g.recording && !sub.queued)
            && (Drops(g, after, s, STALE) <==> stale)
            && (Drops(g, after, s, CUT) <==> !stale && !Exempt(sub) && sub.queued && (g.recording || !current))
  {
    OutdatedIsSeen(g, g.inflight[s].response.responseTo);
    VerdictShows(g, s, JudgeChunk(g, g.inflight[s]), audio, now);
  }

  /**
   A held chunk is queued if and only if the caller is silent, it is the first of
   its answer, and the answer is persistent, uninterrupted, or not outdated.
   */
  lemma HeldQueuedExactly(g: Gate, s: nat, now: string)
    requires s in g.inflight && g.inflight[s].stage.Holding?
    ensures var sub, after := g.inflight[s], Next(g, OnWakeHeld(s), now);
            && (Queues(g, after, s, sub.stage.audio) <==>
                  !g.recording && !sub.queued &&
                  (sub.persistent || sub.requestGeneration == g.generation || !Outdated(g, sub.response.responseTo)))
            && (Queues(g, after, s, sub.stage.audio) <==> !Drops(g, after, s, CUT))
  {
    OutdatedIsSeen(g, g.inflight[s].response.responseTo);
    VerdictShows(g, s, JudgeHeld(g, g.inflight[s]), g.inflight[s].stage.audio, now);
  }

  /** Synthesis over: it failed if nothing was queued; otherwise its request is protected no longer. */
  lemma FinishedExactly(g: Gate, s: nat, failed: bool, now: string)
    requires InStage(g, s, Speaking)
    ensures var sub, after := g.inflight[s], Next(g, OnFinish(s, failed), now);
            && OthersInFlight(g, after, s) && s !in after.inflight && after.pending == g.pending
            && (Noted(after, "tts_failed", "") <==> failed || !sub.queued)
            && (Noted(after, "tts_finished", "") <==> !failed && sub.queued)
            && forall id :: id in after.startupIds <==>
                 id in g.startupIds && (failed || !sub.queued || sub.response.responseTo != Some(id))
  {
  }

  // ------------------------------------------------- interrupting and resuming

  /** If `playing`, the last persistent answer becomes the one to resume. */
  predicate KeepsIf(g: Gate, after: Gate, playing: bool) {
    after.last == g.last && after.resume == (if playing && g.last.Some? then g.last else g.resume)
  }

  ghost predicate Cuts(g: Gate, after: Gate, playing: bool, reason: string) {
    && after.pending == [] && after.generation == g.generation + 1 && after.inflight == g.inflight
    && after.recording == g.recording && after.startupGuard == g.startupGuard && KeepsIf(g, after, playing)
    && Noted(after, "bot_playback_interrupted", reason)
  }

  lemma CutsSo(g: Gate, playing: bool, reason: string, now: string)
    ensures Cuts(g, Interrupted(g, playing, reason, now), playing, reason)
  {
  }

  /** An interrupt keeps a persistent answer that it cuts short, empties the queue and begins a generation. */
  lemma InterruptKeeps(g: Gate, reason: string, now: string)
    ensures Cuts(g, Next(g, OnInterrupt(reason), now), PersistentPlaying(g), reason)
  {
    PersistentIsActive(g);
    CutsSo(g, HasActivePersistent(g), reason, now);
  }

  /** A caller turn is recorded, noted and begins a generation. */
  predicate TurnBegins(g: Gate, heard: Gate) {
    && heard.recording && heard.generation == g.generation + 1 && heard.turn == g.turn + 1
    && heard.pending == g.pending && heard.last == g.last && heard.resume == g.resume && heard.inflight == g.inflight
    && |heard.history| == |g.history| + 1 && heard.history[|g.history|].id == g.nextId
    && Noted(heard, "user_speech_started", "")
  }

  /** The queue is cut for the caller, within the generation that has begun. */
  predicate CutsFor(g: Gate, after: Gate, playing: bool, reason: string) {
    && after.pending == [] && after.generation == g.generation && after.inflight == g.inflight
    && after.recording == g.recording && after.turn == g.turn
    && KeepsIf(g, after, playing && g.pending != [])
    && (g.pending == [] ==> after == g) && (g.pending != [] ==> Noted(after, "bot_playback_interrupted", reason))
  }

  lemma HearsSo(g: Gate, now: string)
    ensures TurnBegins(g, Heard(g, now))
  {
  }

  lemma BargesInSo(g: Gate, playing: bool, now: string)
    ensures CutsFor(g, BargeIn(g, playing, now), playing, "user_speech_started")
  {
  }

  /** A caller turn begins; only on barge-in is the queue emptied, and a persistent answer that this cuts kept. */
  lemma SpeechStartShows(g: Gate, bargeIn: bool, now: string)
    ensures var heard, after := Heard(g, now), Next(g, OnSpeechStarted(bargeIn), now);
            && TurnBegins(g, heard)
            && (bargeIn ==> CutsFor(heard, after, PersistentPlaying(heard), "user_speech_started"))
            && (!bargeIn ==> after == heard)
  {
    var heard := Heard(g, now);
    HearsSo(g, now);
    PersistentIsActive(heard);
    BargesInSo(heard, HasActivePersistent(heard), now);
  }

  lemma SpeechEndShows(g: Gate, now: string)
    ensures var after := Next(g, OnSpeechFinished, now);
            && !after.recording && after.pending == g.pending && after.generation == g.generation
            && after.inflight == g.inflight && Noted(after, "user_speech_finished", "")
  {
  }

  predicate Quieted(g: Gate, h: Gate) {
    && h.pending == [] && h.generation == g.generation + 1 && h.inflight == g.inflight
    && h.recording == g.recording && KeepsIf(g, h, false) && h.startupIds == g.startupIds
    && h.requestGenerations == g.requestGenerations
  }

  lemma QuietsSo(g: Gate, now: string)
    ensures Quieted(g, Silence(Typed(g), "text_input", now))
  {
  }

  lemma AsksSo(g: Gate, h: Gate, now: string)
    requires Quieted(g, h)
    ensures var after := TurnAndRequest(h, now);
            Quieted(g, after.(requestGenerations := h.requestGenerations)) &&
            after.requestGenerations == g.requestGenerations[after.nextId - 1 := after.generation]
  {
  }

  /** Typed text begins a generation, empties the queue without keeping what it cuts, and asks for an answer. */
  lemma TextShows(g: Gate, text: string, now: string)
    requires Possible(g, OnTextInput(text))
    ensures var after := Next(g, OnTextInput(text), now);
            && after.pending == [] && after.generation == g.generation + 1 && after.inflight == g.inflight
            && after.recording == g.recording && KeepsIf(g, after, false) && after.startupIds == g.startupIds
            && after.requestGenerations == g.requestGenerations[after.nextId - 1 := after.generation]
  {
    QuietsSo(g, now);
    AsksSo(g, Silence(Typed(g), "text_input", now), now);
  }

  /** Its request comes after its turn, so the answer to it is not outdated by it. */
  lemma TextIsNoted(g: Gate, text: string, now: string)
    requires Possible(g, OnTextInput(text))
    ensures var after := Next(g, OnTextInput(text), now);
            var n := |after.history|;
            && n >= |g.history| + 2 && after.history[n - 2].kind == "user_transcript"
            && Noted(after, "agent_response_requested", "text_input")
            && after.history[n - 2].id < after.history[n - 1].id == after.nextId - 1
  {
  }

  /** A request remembers the generation it is made in; only that for the greeting is protected. */
  lemma RequestShows(g: Gate, reason: string, now: string)
    ensures var after := Next(g, OnRequest(reason), now);
            && Noted(after, "agent_response_requested", reason) && after.history[|g.history|].id == g.nextId
            && after.requestGenerations == g.requestGenerations[g.nextId := g.generation]
            && after.generation == g.generation && after.startupIds == g.startupIds && after.pending == g.pending
    ensures var after := Next(g, OnGreet, now);
            && Noted(after, "agent_response_requested", "call_connected") && after.history[|g.history|].id == g.nextId
            && after.requestGenerations == g.requestGenerations[g.nextId := g.generation]
            && after.generation == g.generation && after.startupIds == g.startupIds + {g.nextId}
            && after.pending == g.pending
  {
  }

  /** A response arrives with nothing else touched; events of other components add to the log and to nothing else. */
  lemma OthersShow(g: Gate, s: nat, r: Response, callId: string, kind: string, data: Data, now: string)
    requires Possible(g, OnArrive(s, r))
    ensures var after := Next(g, OnArrive(s, r), now);
            && Apart(g, after, s) && after.history == g.history
            && InStage(after, s, Arrived) && after.inflight[s].response == r
    ensures var after := Next(g, OnOtherEvent(callId, kind, data), now);
            && after == g.(history := after.history, nextId := after.nextId) && after.nextId == g.nextId + 1
            && after.history == g.history + [Event(g.nextId, callId, kind, now, data)]
  {
  }

  /** The same words to the same request, as an answer of a persistent kind. */
  predicate Repeats(r: Response, said: Spoken) {
    && r.text == said.text && r.responseTo == said.responseTo && !r.partial
    && r.kind == (if said.kind.Some? && said.kind.value != "" then said.kind else Some("colleague_result"))
  }

  /** Taken up again. */
  ghost predicate Resumes(g: Gate, after: Gate, s: nat, said: Spoken) {
    && OthersInFlight(g, after, s) && InStage(after, s, Arrived) && Repeats(after.inflight[s].response, said)
    && after.trace.resumed == g.trace.resumed + [said] && after.trace.notResumed == g.trace.notResumed
  }

  /** Given up. */
  predicate GivesUp(g: Gate, after: Gate) {
    && after.inflight == g.inflight
    && after.trace.resumed == g.trace.resumed && after.trace.notResumed == g.trace.notResumed + 1
    && Noted(after, "agent_response_dropped", "interrupted_persistent_response_not_resumed")
  }

  /**
   With a remembered answer, a silent caller and nothing queued, the answer is
   taken up again if and only if the turn had no text, and is given up otherwise;
   either way it is remembered no longer.  In all other cases nothing happens.
   */
  lemma ResumedExactly(g: Gate, s: nat, reason: string, now: string)
    requires Possible(g, OnMaybeResume(s, reason))
    ensures var after := Next(g, OnMaybeResume(s, reason), now);
            && (g.resume.Some? && !g.recording && g.pending == [] ==>
                  && (Resumes(g, after, s, g.resume.value) <==> reason == "stt_no_text")
                  && (GivesUp(g, after) <==> reason != "stt_no_text")
                  && after.resume == None && after.last == g.last && after.pending == [] && !after.recording)
            && (g.resume.None? || g.recording || g.pending != [] ==> after == g)
  {
  }

  // ---------------------------------------------------------------- the sender

  /** One packet has gone from the queue: its samples come before all that is left. */
  ghost predicate Sends(g: Gate, after: Gate, n: nat)
    requires g.pending != []
  {
    var piece := g.pending[0];
    var over := |piece.samples| <= n;
    var persistent := piece.data.kind == Some("call_control_ack") || piece.data.kind == Some("colleague_result");
    && after.generation == g.generation && after.recording == g.recording && after.inflight == g.inflight
    && Flat(g.pending) == piece.samples[..Min(n, |piece.samples|)] + Flat(after.pending)
    && |after.pending| == |g.pending| - (if over then 1 else 0)
    && (after.startupGuard <==> g.startupGuard && !piece.unstarted)
    && after.last == (if over && persistent then None else g.last)
    && after.resume == (if over && persistent then None else g.resume)
  }

  lemma SendsSo(g: Gate, n: nat, now: string)
    requires 1 <= n && g.pending != []
    ensures Sends(g, Sent(g, n, now), n)
  {
    FlatHead(g.pending, n);
  }

  /**
   While the caller is recorded nothing is sent: what is queued is cut, unless the
   greeting may go on.  Otherwise one packet of the first piece is sent; an answer
   of a persistent kind is remembered no longer once its last packet is.
   */
  lemma TickShows(g: Gate, n: nat, now: string)
    requires 1 <= n
    ensures var after := Next(g, OnTick(n), now);
            && (g.pending == [] || (g.recording && g.startupGuard) ==> after == g)
            && (g.pending != [] && g.recording && !g.startupGuard ==>
                  Cuts(g, after, PersistentPlaying(g), "caller_is_speaking"))
            && (g.pending != [] && !g.recording ==> Sends(g, after, n))
  {
    if g.pending != [] {
      if g.recording {
        TickCuts(g, n, now);
      } else {
        SendsSo(g, n, now);
      }
    }
  }

  lemma TickCuts(g: Gate, n: nat, now: string)
    requires 1 <= n && g.pending != [] && g.recording
    ensures var after := Next(g, OnTick(n), now);
            && (g.startupGuard ==> after == g)
            && (!g.startupGuard ==> Cuts(g, after, PersistentPlaying(g), "caller_is_speaking"))
  {
    PersistentIsActive(g);
    CutsSo(g, HasActivePersistent(g), "caller_is_speaking", now);
  }

  // -------------------------------------------------- a persistent answer's way

  lemma CutIsRemembered(g: Gate, s: nat, audio: seq<Sample>, cut: string, now: string)
    requires InStage(g, s, Speaking) && g.inflight[s].persistent && !g.recording && !g.inflight[s].queued
    requires PersistentPlaying(Next(g, OnChunk(s, audio), now))
    ensures var h, r := Next(Next(g, OnChunk(s, audio), now), OnInterrupt(cut), now), g.inflight[s].response;
            h.resume == Some(Spoken(r.text, r.responseTo, r.kind)) && !h.recording && h.pending == []
  {
    ChunkQueuedExactly(g, s, audio, now);
    var queued := Next(g, OnChunk(s, audio), now);
    assert Queues(g, queued, s, audio);
    InterruptKeeps(queued, cut, now);
  }

  /**
   A persistent answer whose chunk is queued and which is then cut short while it
   plays comes back, word for word, after a turn without text, if nothing has been
   queued by then and the caller is silent; after any other turn it is given up.
   */
  lemma CutAnswerComesBack(
    g: Gate, s: nat, audio: seq<Sample>, cut: string, s': nat, reason: string, now: string)
    requires InStage(g, s, Speaking) && g.inflight[s].persistent && !g.recording && !g.inflight[s].queued
    requires PersistentPlaying(Next(g, OnChunk(s, audio), now))
    requires var after := Next(Next(g, OnChunk(s, audio), now), OnInterrupt(cut), now);
             Possible(after, OnMaybeResume(s', reason))
    ensures var h := Next(Next(g, OnChunk(s, audio), now), OnInterrupt(cut), now);
            var after := Next(h, OnMaybeResume(s', reason), now);
            var r := g.inflight[s].response;
            && (reason == "stt_no_text" <==> Resumes(h, after, s', Spoken(r.text, r.responseTo, r.kind)))
            && (reason != "stt_no_text" <==> GivesUp(h, after))
  {
    CutIsRemembered(g, s, audio, cut, now);
    ResumedExactly(Next(Next(g, OnChunk(s, audio), now), OnInterrupt(cut), now), s', reason, now);
  }
}
