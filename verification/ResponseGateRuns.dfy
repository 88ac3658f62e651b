/**
 What the response gate keeps over every interleaving of its steps.
 */
module ResponseGateRuns {
  import opened Common
  import opened Events
  import opened Playback
  import opened ResponseGate

  datatype Timed = Timed(move: Move, now: string)

  function After(g: Gate, moves: seq<Timed>): Gate
    requires Run(g, moves)
    decreases |moves|, 1
  {
    if moves == [] then g
    else Next(After(g, moves[..|moves| - 1]), moves[|moves| - 1].move, moves[|moves| - 1].now)
  }

  /** Every step is possible where it is taken. */
  predicate Run(g: Gate, moves: seq<Timed>)
    decreases |moves|, 0
  {
    moves == [] ||
    (Run(g, moves[..|moves| - 1]) && Possible(After(g, moves[..|moves| - 1]), moves[|moves| - 1].move))
  }

  // ------------------------------------------------------- generations and turns

  ghost predicate TurnsKnown(g: Gate) {
    && (forall t :: t in g.trace.turns ==> t < g.nextId)
    && (forall e :: e in g.history && e.id in g.trace.turns ==> IsActivity(e))
    && (forall e :: e in g.history ==> e.id < g.nextId)
  }

  /** A request remembers the generation it was made in; every later turn has raised it since. */
  ghost predicate RequestFits(g: Gate, id: int, at: nat) {
    && id < g.nextId
    && at <= g.generation
    && (forall t :: t in g.trace.turns && t > id ==> at < g.generation)
  }

  ghost predicate SubmissionFits(g: Gate, sub: Submission) {
    && sub.requestGeneration <= g.generation
    && (sub.response.responseTo.Some? && sub.response.responseTo.value in g.requestGenerations ==>
          sub.requestGeneration <= g.requestGenerations[sub.response.responseTo.value])
    && (sub.startup ==> sub.response.responseTo.Some? && sub.response.responseTo.value in g.trace.greetings)
  }

  ghost predicate Sound(g: Gate) {
    && TurnsKnown(g)
    && g.startupIds <= g.trace.greetings
    && (forall id :: id in g.requestGenerations ==> RequestFits(g, id, g.requestGenerations[id]))
    && (forall s :: s in g.inflight ==> SubmissionFits(g, g.inflight[s]))
  }

  /** Changing the queue, the flags or the resume state does not touch any of this. */
  ghost predicate SameCore(g: Gate, h: Gate) {
    && h.history == g.history && h.nextId == g.nextId && h.trace.turns == g.trace.turns
    && h.generation == g.generation && h.requestGenerations == g.requestGenerations
    && h.trace.greetings == g.trace.greetings
  }

  lemma CoreSound(g: Gate, h: Gate)
    requires Sound(g) && SameCore(g, h) && h.startupIds <= g.startupIds
    requires forall s :: s in h.inflight ==> s in g.inflight && h.inflight[s] == g.inflight[s]
    ensures Sound(h)
  {
    forall id | id in h.requestGenerations ensures RequestFits(h, id, h.requestGenerations[id]) {
      assert RequestFits(g, id, g.requestGenerations[id]);
    }
    forall s | s in h.inflight ensures SubmissionFits(h, h.inflight[s]) {
      assert SubmissionFits(g, g.inflight[s]);
    }
  }

  lemma SetSound(g: Gate, s: nat, sub: Submission)
    requires Sound(g) && SubmissionFits(g, sub)
    ensures Sound(Set(g, s, sub))
  {
    var h := Set(g, s, sub);
    forall id | id in h.requestGenerations ensures RequestFits(h, id, h.requestGenerations[id]) {
      assert RequestFits(g, id, g.requestGenerations[id]);
    }
    forall x | x in h.inflight ensures SubmissionFits(h, h.inflight[x]) {
      assert x == s || SubmissionFits(g, g.inflight[x]);
    }
  }

  lemma OtherEventSound(g: Gate, callId: string, kind: string, data: Data, now: string)
    requires Sound(g)
    ensures Sound(OtherEvent(g, callId, kind, data, now))
  {
    var h := OtherEvent(g, callId, kind, data, now);
    forall id | id in h.requestGenerations ensures RequestFits(h, id, h.requestGenerations[id]) {
      assert RequestFits(g, id, g.requestGenerations[id]);
    }
    forall s | s in h.inflight ensures SubmissionFits(h, h.inflight[s]) {
      assert SubmissionFits(g, g.inflight[s]);
    }
  }

  lemma NoteSound(g: Gate, kind: string, reason: string, now: string)
    requires Sound(g)
    ensures Sound(Note(g, kind, reason, now))
  {
    OtherEventSound(g, g.callId, kind, map["reason" := Text(reason)], now);
  }

  lemma DropSound(g: Gate, s: nat, reason: string, now: string)
    requires Sound(g)
    ensures Sound(Drop(g, s, reason, now))
  {
    var noted := Note(g, "agent_response_dropped", reason, now);
    NoteSound(g, "agent_response_dropped", reason, now);
    CoreSound(noted, Drop(g, s, reason, now));
  }

  /** Every remembered generation is behind the current one. */
  ghost predicate Outranked(g: Gate) {
    forall id :: id in g.requestGenerations ==> g.requestGenerations[id] < g.generation
  }

  lemma BumpSound(g: Gate)
    requires Sound(g)
    ensures Sound(Bump(g)) && Outranked(Bump(g))
  {
    var h := Bump(g);
    forall id | id in h.requestGenerations
      ensures RequestFits(h, id, h.requestGenerations[id]) && h.requestGenerations[id] < h.generation
    {
      assert RequestFits(g, id, g.requestGenerations[id]);
    }
    forall s | s in h.inflight ensures SubmissionFits(h, h.inflight[s]) {
      assert SubmissionFits(g, g.inflight[s]);
    }
  }

  /** A turn begins with its event noted and the generation raised, in either order. */
  lemma TurnSound(g: Gate, kind: string, reason: string, now: string)
    requires Sound(g) && (kind == "user_speech_started" || kind == "user_transcript")
    requires Outranked(g)
    ensures Sound(NoteTurn(g, kind, reason, now))
  {
    var h := NoteTurn(g, kind, reason, now);
    forall id | id in h.requestGenerations ensures RequestFits(h, id, h.requestGenerations[id]) {
      assert RequestFits(g, id, g.requestGenerations[id]);
    }
    forall s | s in h.inflight ensures SubmissionFits(h, h.inflight[s]) {
      assert SubmissionFits(g, g.inflight[s]);
    }
  }

  lemma EmitSound(g: Gate, reason: string, now: string)
    requires Sound(g)
    ensures Sound(EmitRequest(g, reason, now))
  {
    var h := EmitRequest(g, reason, now);
    forall id | id in h.requestGenerations ensures RequestFits(h, id, h.requestGenerations[id]) {
      assert id == g.nextId || RequestFits(g, id, g.requestGenerations[id]);
    }
    forall s | s in h.inflight ensures SubmissionFits(h, h.inflight[s]) {
      assert SubmissionFits(g, g.inflight[s]);
    }
  }

  lemma SilenceSound(g: Gate, reason: string, now: string)
    requires Sound(g)
    ensures Sound(Silence(g, reason, now))
  {
    CoreSound(g, g.(pending := []));
    NoteSound(g.(pending := []), "bot_playback_interrupted", reason, now);
  }

  lemma KeepSound(g: Gate, active: bool, now: string)
    requires Sound(g)
    ensures Sound(Keep(g, active, now))
  {
    var kept := g.(resume := g.last, trace := g.trace.(remembered := g.trace.remembered + 1));
    CoreSound(g, kept);
    NoteSound(kept, "agent_response_deferred", "persistent_response_interrupted", now);
  }

  lemma HeardSound(g: Gate, now: string)
    requires Sound(g)
    ensures Sound(Heard(g, now))
  {
    var on := g.(recording := true, turn := g.turn + 1);
    CoreSound(g, on);
    BumpSound(on);
    TurnSound(Bump(on), "user_speech_started", "", now);
    assert Heard(g, now) == NoteTurn(Bump(on), "user_speech_started", "", now);
  }

  lemma BargeInSound(g: Gate, active: bool, now: string)
    requires Sound(g)
    ensures Sound(BargeIn(g, active, now))
  {
    KeepSound(g, active, now);
    SilenceSound(g, "user_speech_started", now);
    SilenceSound(Keep(g, active, now), "user_speech_started", now);
  }

  lemma SpeechStartedSound(g: Gate, bargeIn: bool, now: string)
    requires Sound(g)
    ensures Sound(SpeechStarted(g, bargeIn, now))
  {
    HeardSound(g, now);
    var heard := Heard(g, now);
    BargeInSound(heard, HasActivePersistent(heard), now);
  }

  lemma TurnAndRequestSound(g: Gate, now: string)
    requires Sound(g) && Outranked(g)
    ensures Sound(TurnAndRequest(g, now))
  {
    TurnSound(g, "user_transcript", "text_input", now);
    EmitSound(NoteTurn(g, "user_transcript", "text_input", now), "text_input", now);
  }

  lemma SilencedInputSound(g: Gate, now: string)
    requires Sound(g) && Outranked(g)
    ensures Sound(TurnAndRequest(Silence(g, "text_input", now), now))
  {
    var silenced := Silence(g, "text_input", now);
    SilenceSound(g, "text_input", now);
    assert silenced.requestGenerations == g.requestGenerations && silenced.generation == g.generation;
    TurnAndRequestSound(silenced, now);
  }

  lemma TypedSound(g: Gate)
    requires Sound(g)
    ensures Sound(Typed(g)) && Outranked(Typed(g))
  {
    var on := g.(turn := g.turn + 1);
    CoreSound(g, on);
    BumpSound(on);
  }

  lemma TextInputSound(g: Gate, now: string)
    requires Sound(g)
    ensures Sound(TextInput(g, now))
  {
    TypedSound(g);
    SilencedInputSound(Typed(g), now);
  }

  lemma GreetSound(g: Gate, now: string)
    requires Sound(g)
    ensures Sound(Greet(g, now))
  {
    EmitSound(g, "call_connected", now);
    var emitted, h := EmitRequest(g, "call_connected", now), Greet(g, now);
    forall id | id in h.requestGenerations ensures RequestFits(h, id, h.requestGenerations[id]) {
      assert RequestFits(emitted, id, emitted.requestGenerations[id]);
    }
    forall s | s in h.inflight ensures SubmissionFits(h, h.inflight[s]) {
      assert SubmissionFits(emitted, emitted.inflight[s]);
    }
  }

  lemma InterruptSound(g: Gate, active: bool, reason: string, now: string)
    requires Sound(g)
    ensures Sound(Interrupted(g, active, reason, now))
  {
    KeepSound(g, active, now);
    var kept := Keep(g, active, now);
    CoreSound(kept, kept.(pending := []));
    BumpSound(kept.(pending := []));
    NoteSound(Bump(kept.(pending := [])), "bot_playback_interrupted", reason, now);
  }

  lemma ReceivedSound(g: Gate, r: Response, now: string)
    requires Sound(g)
    ensures Sound(Received(g, r, now)) && Sound(Cleared(Received(g, r, now), r, now))
    ensures Cleared(Received(g, r, now), r, now).trace == Received(g, r, now).trace
    ensures Cleared(Received(g, r, now), r, now).requestGenerations == Received(g, r, now).requestGenerations
  {
    NoteSound(g, if r.partial then "agent_response_partial" else "agent_response_received", "", now);
    var received := Received(g, r, now);
    CoreSound(received, received.(pending := []));
    NoteSound(received.(pending := []), "bot_playback_interrupted", "call_control_ack_priority", now);
  }

  lemma AdmitSound(g: Gate, s: nat, now: string)
    requires Sound(g) && s in g.inflight
    ensures Sound(Admit(g, s, now))
  {
    var r := g.inflight[s].response;
    ReceivedSound(g, r, now);
    var received := Received(g, r, now);
    var h := Cleared(received, r, now);
    var sub := Submission(r, IsStartup(received, r.responseTo), IsPersistent(received, r), 0, false, Admitted);
    assert SubmissionFits(h, sub);
    AdmitWithSound(h, s, sub, r.kind == Some("progress_ack") && Plays(h.pending, "progress_ack"),
                   HasActivePersistent(h), HasNewerUserActivity(h, r.responseTo), now);
  }

  lemma AdmitWithSound(g: Gate, s: nat, sub: Submission, duplicate: bool, busy: bool, stale: bool, now: string)
    requires Sound(g) && SubmissionFits(g, sub)
    ensures Sound(AdmitWith(g, s, sub, duplicate, busy, stale, now))
  {
    DropSound(g, s, "duplicate_active_progress_ack", now);
    DropSound(g, s, "active_colleague_result_playback", now);
    DropSound(g, s, "stale_response_after_new_caller_speech", now);
    SetSound(g, s, sub);
  }

  lemma SynthesisSound(g: Gate, s: nat, now: string)
    requires Sound(g) && s in g.inflight
    ensures var at := ResponseGeneration(g, g.inflight[s].response.responseTo);
            var sub := g.inflight[s].(requestGeneration := at, queued := false, stage := Speaking);
            Sound(Set(Note(g, "tts_started", "", now), s, sub))
  {
    var sub := g.inflight[s];
    var id := sub.response.responseTo;
    assert SubmissionFits(g, sub);
    if id.Some? && id.value in g.requestGenerations {
      assert RequestFits(g, id.value, g.requestGenerations[id.value]);
    }
    NoteSound(g, "tts_started", "", now);
    SetSound(Note(g, "tts_started", "", now), s,
             sub.(requestGeneration := ResponseGeneration(g, id), queued := false, stage := Speaking));
  }

  lemma DeferSound(g: Gate, s: nat, now: string)
    requires Sound(g) && s in g.inflight
    ensures var sub := g.inflight[s].(stage := Deferred);
            Sound(Set(Note(g, "agent_response_deferred", "caller_is_speaking", now), s, sub))
  {
    assert SubmissionFits(g, g.inflight[s]);
    NoteSound(g, "agent_response_deferred", "caller_is_speaking", now);
    SetSound(Note(g, "agent_response_deferred", "caller_is_speaking", now), s, g.inflight[s].(stage := Deferred));
  }

  lemma ProceedSound(g: Gate, s: nat, newer: bool, now: string)
    requires Sound(g) && s in g.inflight
    ensures Sound(ProceedWith(g, s, newer, now))
  {
    DeferSound(g, s, now);
    DropSound(g, s, "stale_response_after_new_caller_speech", now);
    SynthesisSound(g, s, now);
  }

  lemma JudgedSound(g: Gate, s: nat, verdict: Verdict, audio: seq<Sample>, now: string)
    requires Sound(g) && s in g.inflight
    ensures Sound(Judged(g, s, verdict, audio, now))
  {
    var sub := g.inflight[s];
    assert SubmissionFits(g, sub);
    match verdict
    case Stale => DropSound(g, s, "stale_response_after_new_caller_speech", now);
    case Wait =>
      NoteSound(g, "agent_response_deferred", "caller_started_speaking_during_tts", now);
      SetSound(Note(g, "agent_response_deferred", "caller_started_speaking_during_tts", now), s,
               sub.(stage := Holding(audio)));
    case Refuse => DropSound(g, s, "caller_started_speaking_during_tts_or_after_request", now);
    case Speak =>
      SetSound(g, s, sub.(queued := true, stage := Speaking));
      var kept, quiet := Set(g, s, sub.(queued := true, stage := Speaking)), EnqueueChunk(g, s, audio);
      CoreSound(kept, quiet);
      NoteSound(quiet, "agent_response_queued", "", now);
  }

  lemma FinishSound(g: Gate, s: nat, failed: bool, now: string)
    requires Sound(g) && s in g.inflight
    ensures Sound(Finish(g, s, failed, now))
  {
    var done := g.(inflight := g.inflight - {s});
    CoreSound(g, done);
    NoteSound(done, "tts_failed", "", now);
    NoteSound(done, "tts_finished", "", now);
    var noted := Note(done, "tts_finished", "", now);
    CoreSound(noted, noted.(startupIds := Finish(g, s, failed, now).startupIds));
  }

  lemma BegunSound(g: Gate, started: bool, now: string)
    requires Sound(g)
    ensures Sound(Begun(g, started, now))
  {
    CoreSound(g, g.(startupGuard := false));
    NoteSound(g.(startupGuard := false), "bot_playback_started", "", now);
  }

  lemma EndedSound(g: Gate, finished: bool, m: Meta, now: string)
    requires Sound(g)
    ensures Sound(Ended(g, finished, m, now))
  {
    NoteSound(g, "bot_playback_finished", "", now);
    var ended := Note(g, "bot_playback_finished", "", now);
    CoreSound(ended, Forget(ended, m));
  }

  lemma SentSound(g: Gate, n: nat, now: string)
    requires Sound(g) && 1 <= n && g.pending != []
    ensures Sound(Sent(g, n, now))
  {
    var packet := Head(g.pending[0], n);
    var taken := g.(pending := Tail(g.pending[0], n) + g.pending[1..]);
    CoreSound(g, taken);
    BegunSound(taken, packet.started, now);
    EndedSound(Begun(taken, packet.started, now), packet.finished, packet.data, now);
  }

  lemma TickSound(g: Gate, n: nat, now: string)
    requires Sound(g) && 1 <= n
    ensures Sound(Tick(g, n, now))
  {
    if g.pending != [] {
      InterruptSound(g, HasActivePersistent(g), "caller_is_speaking", now);
      SentSound(g, n, now);
    }
  }

  lemma MaybeResumeSound(g: Gate, s: nat, reason: string, now: string)
    requires Sound(g)
    ensures Sound(MaybeResume(g, s, reason, now))
  {
    if g.resume.Some? {
      var said := g.resume.value;
      var dropped := g.(resume := None, trace := g.trace.(notResumed := g.trace.notResumed + 1));
      var taken := g.(resume := None, trace := g.trace.(resumed := g.trace.resumed + [said]));
      CoreSound(g, dropped);
      CoreSound(g, taken);
      NoteSound(dropped, "agent_response_dropped", "interrupted_persistent_response_not_resumed", now);
      NoteSound(taken, "agent_response_resumed", reason, now);
      SetSound(Note(taken, "agent_response_resumed", reason, now), s,
               Submission(Resumption(said), false, false, 0, false, Arrived));
    }
  }

  lemma StepSound(g: Gate, m: Move, now: string)
    requires Sound(g) && Possible(g, m)
    ensures Sound(Next(g, m, now))
  {
    match m
    case OnSpeechStarted(bargeIn) => SpeechStartedSound(g, bargeIn, now);
    case OnSpeechFinished =>
      CoreSound(g, g.(recording := false));
      NoteSound(g.(recording := false), "user_speech_finished", "", now);
    case OnTextInput(_) => TextInputSound(g, now);
    case OnRequest(reason) => EmitSound(g, reason, now);
    case OnGreet => GreetSound(g, now);
    case OnInterrupt(reason) => InterruptSound(g, HasActivePersistent(g), reason, now);
    case OnOtherEvent(callId, kind, data) => OtherEventSound(g, callId, kind, data, now);
    case OnArrive(s, r) => SetSound(g, s, Submission(r, false, false, 0, false, Arrived));
    case OnAdmit(s) => AdmitSound(g, s, now);
    case OnProceed(s) => ProceedSound(g, s, HasNewerUserActivity(g, g.inflight[s].response.responseTo), now);
    case OnWakeDeferred(s) =>
      SetSound(g, s, Submission(g.inflight[s].response, false, false, 0, false, Arrived));
      DropSound(g, s, "caller_is_speaking", now);
    case OnChunk(s, audio) => JudgedSound(g, s, JudgeChunk(g, g.inflight[s]), audio, now);
    case OnWakeHeld(s) => JudgedSound(g, s, JudgeHeld(g, g.inflight[s]), g.inflight[s].stage.audio, now);
    case OnFinish(s, failed) => FinishSound(g, s, failed, now);
    case OnTick(n) => TickSound(g, n, now);
    case OnMaybeResume(s, reason) => MaybeResumeSound(g, s, reason, now);
  }

  lemma StartSound(callId: string, bound: nat, history: seq<Event>)
    ensures Sound(Start(callId, bound, history))
  {
    MaxOrIsMax(Ids(history), 0);
    forall e | e in history ensures e.id < NextId(history) {
      var i :| 0 <= i < |history| && history[i] == e;
      assert Ids(history)[i] == e.id;
    }
  }

  lemma {:induction false} RunStaysSound(g: Gate, moves: seq<Timed>)
    requires Sound(g) && Run(g, moves)
    ensures Sound(After(g, moves))
  {
    if moves != [] {
      RunStaysSound(g, moves[..|moves| - 1]);
      StepSound(After(g, moves[..|moves| - 1]), moves[|moves| - 1].move, moves[|moves| - 1].now);
    }
  }

  // ------------------------------------------- answers the caller has talked over

  /**
   Synthesis begins while the caller is silent, unless the answer is exempt.  So if
   the caller is recorded while it goes on, or a chunk is held, an interrupt has
   come since the generation the answer began with.
   */
  ghost predicate Overdue(g: Gate, sub: Submission) {
    && sub.requestGeneration <= g.generation
    && (sub.stage.Holding? ==> sub.requestGeneration < g.generation)
    && (g.recording && sub.stage.Speaking? && !sub.startup && !Bypasses(sub.response) ==>
          sub.requestGeneration < g.generation)
  }

  ghost predicate AllOverdue(g: Gate) {
    forall s :: s in g.inflight ==> Overdue(g, g.inflight[s])
  }

  /** Every submission but `s` is as it was, and only a new turn starts a recording. */
  ghost predicate OnlyTouches(g: Gate, h: Gate, s: nat) {
    && (forall x :: x in h.inflight && x != s ==> x in g.inflight && h.inflight[x] == g.inflight[x])
    && g.generation <= h.generation && (h.recording ==> g.recording || g.generation < h.generation)
  }

  lemma TouchOverdue(g: Gate, h: Gate, s: nat)
    requires AllOverdue(g) && OnlyTouches(g, h, s) && (s in h.inflight ==> Overdue(h, h.inflight[s]))
    ensures AllOverdue(h)
  {
    forall x | x in h.inflight ensures Overdue(h, h.inflight[x]) {
      assert x == s || Overdue(g, g.inflight[x]);
    }
  }

  lemma UntouchedOverdue(g: Gate, h: Gate)
    requires AllOverdue(g) && h.inflight == g.inflight
    requires g.generation <= h.generation && (h.recording ==> g.recording || g.generation < h.generation)
    ensures AllOverdue(h)
  {
    forall x | x in h.inflight ensures Overdue(h, h.inflight[x]) {
      assert Overdue(g, g.inflight[x]);
    }
  }

  lemma ProceedOverdue(g: Gate, s: nat, newer: bool, now: string)
    requires AllOverdue(g) && Sound(g) && s in g.inflight
    ensures AllOverdue(ProceedWith(g, s, newer, now))
  {
    var id := g.inflight[s].response.responseTo;
    assert Overdue(g, g.inflight[s]);
    if id.Some? && id.value in g.requestGenerations {
      assert RequestFits(g, id.value, g.requestGenerations[id.value]);
    }
    TouchOverdue(g, ProceedWith(g, s, newer, now), s);
  }

  /** A chunk waits only if the caller is recorded, and is then interrupted. */
  lemma ChunkOverdue(g: Gate, s: nat, verdict: Verdict, audio: seq<Sample>, now: string)
    requires AllOverdue(g) && InStage(g, s, Speaking)
    requires verdict.Wait? ==> g.recording && !g.inflight[s].startup && !Bypasses(g.inflight[s].response)
    ensures AllOverdue(Judged(g, s, verdict, audio, now))
  {
    assert Overdue(g, g.inflight[s]);
    TouchOverdue(g, Judged(g, s, verdict, audio, now), s);
  }

  lemma HeldOverdue(g: Gate, s: nat, verdict: Verdict, now: string)
    requires AllOverdue(g) && s in g.inflight && g.inflight[s].stage.Holding?
    requires verdict == JudgeHeld(g, g.inflight[s])
    ensures AllOverdue(Judged(g, s, verdict, g.inflight[s].stage.audio, now))
  {
    assert Overdue(g, g.inflight[s]);
    TouchOverdue(g, Judged(g, s, verdict, g.inflight[s].stage.audio, now), s);
  }

  lemma AdmitOverdue(g: Gate, s: nat, now: string)
    requires AllOverdue(g) && s in g.inflight
    ensures AllOverdue(Admit(g, s, now))
  {
    var r := g.inflight[s].response;
    var received := Received(g, r, now);
    var h := Cleared(received, r, now);
    var sub := Submission(r, IsStartup(received, r.responseTo), IsPersistent(received, r), 0, false, Admitted);
    AdmitWithOverdue(g, h, s, sub, r.kind == Some("progress_ack") && Plays(h.pending, "progress_ack"),
                     HasActivePersistent(h), HasNewerUserActivity(h, r.responseTo), now);
  }

  lemma AdmitWithOverdue(
    g: Gate, h: Gate, s: nat, sub: Submission, duplicate: bool, busy: bool, stale: bool, now: string)
    requires AllOverdue(g) && h.inflight == g.inflight && h.generation == g.generation && h.recording == g.recording
    requires sub.requestGeneration == 0 && sub.stage == Admitted
    ensures AllOverdue(AdmitWith(h, s, sub, duplicate, busy, stale, now))
  {
    TouchOverdue(g, AdmitWith(h, s, sub, duplicate, busy, stale, now), s);
  }

  lemma BargeInOverdue(g: Gate, active: bool, now: string)
    requires AllOverdue(g)
    ensures AllOverdue(BargeIn(g, active, now))
  {
    UntouchedOverdue(g, BargeIn(g, active, now));
  }

  lemma TickOverdue(g: Gate, n: nat, now: string)
    requires AllOverdue(g) && 1 <= n
    ensures AllOverdue(Tick(g, n, now))
  {
    if g.pending != [] {
      if g.recording {
        InterruptOverdue(g, HasActivePersistent(g), "caller_is_speaking", now);
      } else {
        SentOverdue(g, n, now);
      }
    }
  }

  lemma InterruptOverdue(g: Gate, active: bool, reason: string, now: string)
    requires AllOverdue(g)
    ensures AllOverdue(Interrupted(g, active, reason, now))
  {
    UntouchedOverdue(g, Interrupted(g, active, reason, now));
  }

  lemma SentOverdue(g: Gate, n: nat, now: string)
    requires AllOverdue(g) && 1 <= n && g.pending != []
    ensures AllOverdue(Sent(g, n, now))
  {
    UntouchedOverdue(g, Sent(g, n, now));
  }

  lemma SpeechOverdue(g: Gate, bargeIn: bool, now: string)
    requires AllOverdue(g)
    ensures AllOverdue(SpeechStarted(g, bargeIn, now))
  {
    var heard := Heard(g, now);
    UntouchedOverdue(g, heard);
    BargeInOverdue(heard, HasActivePersistent(heard), now);
  }

  lemma TextOverdue(g: Gate, now: string)
    requires AllOverdue(g)
    ensures AllOverdue(TextInput(g, now))
  {
    UntouchedOverdue(g, TextInput(g, now));
  }

  /** The steps that only note an event. */
  lemma NotedOverdue(g: Gate, reason: string, callId: string, kind: string, data: Data, now: string)
    requires AllOverdue(g)
    ensures AllOverdue(SpeechFinished(g, now)) && AllOverdue(EmitRequest(g, reason, now))
    ensures AllOverdue(Greet(g, now)) && AllOverdue(OtherEvent(g, callId, kind, data, now))
  {
    UntouchedOverdue(g, SpeechFinished(g, now));
    UntouchedOverdue(g, EmitRequest(g, reason, now));
    UntouchedOverdue(g, Greet(g, now));
    UntouchedOverdue(g, OtherEvent(g, callId, kind, data, now));
  }

  lemma ArriveOverdue(g: Gate, s: nat, r: Response)
    requires AllOverdue(g)
    ensures AllOverdue(Arrive(g, s, r))
  {
    TouchOverdue(g, Arrive(g, s, r), s);
  }

  lemma WakeOverdue(g: Gate, s: nat, newer: bool, now: string)
    requires AllOverdue(g) && s in g.inflight
    ensures AllOverdue(WakeWith(g, s, newer, now))
  {
    TouchOverdue(g, WakeWith(g, s, newer, now), s);
  }

  lemma FinishOverdue(g: Gate, s: nat, failed: bool, now: string)
    requires AllOverdue(g) && s in g.inflight
    ensures AllOverdue(Finish(g, s, failed, now))
  {
    TouchOverdue(g, Finish(g, s, failed, now), s);
  }

  lemma ResumeOverdue(g: Gate, s: nat, reason: string, now: string)
    requires AllOverdue(g)
    ensures AllOverdue(MaybeResume(g, s, reason, now))
  {
    TouchOverdue(g, MaybeResume(g, s, reason, now), s);
  }

  lemma StepOverdue(g: Gate, m: Move, now: string)
    requires AllOverdue(g) && Sound(g) && Possible(g, m)
    ensures AllOverdue(Next(g, m, now))
  {
    match m
    case OnSpeechStarted(bargeIn) => SpeechOverdue(g, bargeIn, now);
    case OnInterrupt(reason) => InterruptOverdue(g, HasActivePersistent(g), reason, now);
    case OnArrive(s, r) => ArriveOverdue(g, s, r);
    case OnAdmit(s) => AdmitOverdue(g, s, now);
    case OnProceed(s) => ProceedOverdue(g, s, HasNewerUserActivity(g, g.inflight[s].response.responseTo), now);
    case OnWakeDeferred(s) => WakeOverdue(g, s, HasNewerUserActivity(g, g.inflight[s].response.responseTo), now);
    case OnChunk(s, audio) => ChunkOverdue(g, s, JudgeChunk(g, g.inflight[s]), audio, now);
    case OnWakeHeld(s) => HeldOverdue(g, s, JudgeHeld(g, g.inflight[s]), now);
    case OnFinish(s, failed) => FinishOverdue(g, s, failed, now);
    case OnTick(n) => TickOverdue(g, n, now);
    case OnMaybeResume(s, reason) => ResumeOverdue(g, s, reason, now);
    case OnTextInput(_) => TextOverdue(g, now);
    case OnSpeechFinished => NotedOverdue(g, "", "", "", map[], now);
    case OnRequest(reason) => NotedOverdue(g, reason, "", "", map[], now);
    case OnGreet => NotedOverdue(g, "", "", "", map[], now);
    case OnOtherEvent(callId, kind, data) => NotedOverdue(g, "", callId, kind, data, now);
  }

  lemma {:induction false} RunStaysOverdue(g: Gate, moves: seq<Timed>)
    requires AllOverdue(g) && Sound(g) && Run(g, moves)
    ensures AllOverdue(After(g, moves))
  {
    if moves != [] {
      RunStaysOverdue(g, moves[..|moves| - 1]);
      RunStaysSound(g, moves[..|moves| - 1]);
      StepOverdue(After(g, moves[..|moves| - 1]), moves[|moves| - 1].move, moves[|moves| - 1].now);
    }
  }

  // ------------------------------------------------------- what the scan can see

  /** The position in the history from which events are still in memory. */
  function RetainedFrom(g: Gate): nat {
    |g.history| - |Window(g.history, g.bound)|
  }

  /** An event of the call that is retained, with fewer than SCAN_LIMIT retained events of the call before it. */
  predicate InReach(g: Gate, p: nat) {
    && RetainedFrom(g) <= p < |g.history| && Wanted(g.history[p], 0, Some(g.callId))
    && |Filter(g.history[RetainedFrom(g)..p], 0, Some(g.callId))| < SCAN_LIMIT
  }

  lemma ReachIsScanned(g: Gate, p: nat)
    requires InReach(g, p)
    ensures exists i :: 0 <= i < |Scan(g)| && Scan(g)[i] == g.history[p]
  {
    var w, q := Window(g.history, g.bound), p - RetainedFrom(g);
    assert w[..q] == g.history[RetainedFrom(g)..p] && w[q] == g.history[p];
    FilterKeepsPlace(w, q, 0, Some(g.callId));
    assert Scan(g)[|Filter(w[..q], 0, Some(g.callId))|] == g.history[p];
  }

  lemma ScannedIsReached(g: Gate, i: nat) returns (p: nat)
    requires i < |Scan(g)|
    ensures InReach(g, p) && g.history[p] == Scan(g)[i]
  {
    var w := Window(g.history, g.bound);
    var q := FilteredFrom(w, i, 0, Some(g.callId));
    p := q + RetainedFrom(g);
    assert w[..q] == g.history[RetainedFrom(g)..p] && w[q] == g.history[p];
  }

  /** Among events with different ids, exactly those within reach are scanned. */
  lemma ScannedExactly(g: Gate, p: nat)
    requires p < |g.history| && forall i :: 0 <= i < |g.history| && i != p ==> g.history[i].id != g.history[p].id
    ensures g.history[p] in Scan(g) <==> InReach(g, p)
  {
    if g.history[p] in Scan(g) {
      var i :| 0 <= i < |Scan(g)| && Scan(g)[i] == g.history[p];
      var q := ScannedIsReached(g, i);
      assert q == p;
    }
    if InReach(g, p) {
      ReachIsScanned(g, p);
    }
  }

  /** With a bound of at most SCAN_LIMIT only compaction can put an event out of reach. */
  lemma SmallWindowIsInReach(g: Gate, p: nat)
    requires 1 <= g.bound <= SCAN_LIMIT && p < |g.history|
    ensures InReach(g, p) <==> RetainedFrom(g) <= p && Wanted(g.history[p], 0, Some(g.callId))
  {
    if RetainedFrom(g) <= p {
      FilterIsNoLonger(g.history[RetainedFrom(g)..p], 0, Some(g.callId));
    }
  }

  /** Caller activity newer than a request, at position `p` and within reach. */
  predicate NewerAt(g: Gate, id: int, p: nat) {
    InReach(g, p) && g.history[p].id > id && IsActivity(g.history[p])
  }

  /** The check for newer activity succeeds if and only if some newer activity is within reach. */
  lemma NewerSeenExactly(g: Gate, id: int)
    ensures HasNewerUserActivity(g, Some(id)) <==> exists p :: 0 <= p < |g.history| && NewerAt(g, id, p)
  {
    if HasNewerUserActivity(g, Some(id)) {
      var i :| 0 <= i < |Scan(g)| && Scan(g)[i].id > id && IsActivity(Scan(g)[i]);
      var p := ScannedIsReached(g, i);
      assert NewerAt(g, id, p);
    }
    if p: nat :| p < |g.history| && NewerAt(g, id, p) {
      ReachIsScanned(g, p);
    }
  }

  ghost predicate NoneNewer(g: Gate, id: int) {
    forall p :: 0 <= p < |g.history| ==> !NewerAt(g, id, p)
  }

  predicate IsOrdinary(sub: Submission) {
    !sub.startup && !sub.persistent && !Bypasses(sub.response)
  }

  /**
   A chunk of an ordinary answer is spoken exactly if the caller is silent, no
   newer activity is within reach, and no interrupt has come since its request if
   a part of it is queued already.
   */
  lemma SpokenExactlyIfUnseen(g: Gate, sub: Submission, id: int)
    requires IsOrdinary(sub) && sub.response.responseTo == Some(id)
    ensures JudgeChunk(g, sub) == Speak <==>
            !g.recording && NoneNewer(g, id) && (sub.queued ==> sub.requestGeneration == g.generation)
  {
    NewerSeenExactly(g, id);
  }

  /**
   A chunk held while the caller spoke is spoken exactly if the caller is silent
   again, it is the first of its answer, and no interrupt has come since the
   request, which HeldIsInterrupted excludes, or no newer activity is within reach.
   */
  lemma HeldSpokenExactly(g: Gate, sub: Submission, id: int)
    requires IsOrdinary(sub) && sub.response.responseTo == Some(id)
    ensures JudgeHeld(g, sub) == Speak <==>
            !g.recording && !sub.queued && (sub.requestGeneration == g.generation || NoneNewer(g, id))
  {
    NewerSeenExactly(g, id);
  }

  // ---------------------------------------------------------------- main theorems

  /**
   In every interleaving, while the caller is being recorded the only chunks
   enqueued belong to a call-control acknowledgement or to the response to the
   opening greeting.
   */
  lemma OnlyExemptWhileRecording(callId: string, bound: nat, history: seq<Event>, moves: seq<Timed>, m: Move, s: nat)
    requires Run(Start(callId, bound, history), moves)
    requires var g := After(Start(callId, bound, history), moves); g.recording && Enqueues(g, m, s)
    ensures var g := After(Start(callId, bound, history), moves);
            var r := g.inflight[s].response;
            r.kind == Some("call_control_ack") ||
            (r.responseTo.Some? && r.responseTo.value in g.trace.greetings)
  {
    StartSound(callId, bound, history);
    RunStaysSound(Start(callId, bound, history), moves);
    var g := After(Start(callId, bound, history), moves);
    assert SubmissionFits(g, g.inflight[s]);
  }

  /**
   In every interleaving, a chunk of an answer that is neither startup nor
   persistent is never enqueued while activity of the caller newer than the
   request it answers is within reach of the scan, whoever made that request.
   */
  lemma NeverAfterNewerTurn(
    callId: string, bound: nat, history: seq<Event>, moves: seq<Timed>, m: Move, s: nat, id: int)
    requires Run(Start(callId, bound, history), moves)
    requires Enqueues(After(Start(callId, bound, history), moves), m, s)
    requires var sub := After(Start(callId, bound, history), moves).inflight[s];
             !sub.startup && !sub.persistent && sub.response.responseTo == Some(id)
    ensures NoneNewer(After(Start(callId, bound, history), moves), id)
  {
    HeldIsInterrupted(callId, bound, history, moves, s);
    NewerSeenExactly(After(Start(callId, bound, history), moves), id);
  }

  /** In every interleaving, an answer with a chunk held has been interrupted since its request. */
  lemma HeldIsInterrupted(callId: string, bound: nat, history: seq<Event>, moves: seq<Timed>, s: nat)
    requires Run(Start(callId, bound, history), moves) && s in After(Start(callId, bound, history), moves).inflight
    ensures var g := After(Start(callId, bound, history), moves);
            g.inflight[s].stage.Holding? ==> g.inflight[s].requestGeneration < g.generation
  {
    StartSound(callId, bound, history);
    RunStaysOverdue(Start(callId, bound, history), moves);
    var g := After(Start(callId, bound, history), moves);
    assert Overdue(g, g.inflight[s]);
  }

  /** Every prefix of a run is a run. */
  lemma {:induction false} RunPrefix(g: Gate, moves: seq<Timed>, i: nat)
    requires Run(g, moves) && i <= |moves|
    ensures Run(g, moves[..i])
  {
    if i == |moves| {
      assert moves[..i] == moves;
    } else {
      assert moves[..|moves| - 1][..i] == moves[..i];
      RunPrefix(g, moves[..|moves| - 1], i);
    }
  }

  /**
   In every interleaving, an interrupt or a caller turn ends an answer of which a
   part has been queued: a submission in flight before it, persistent or not,
   enqueues no further chunk after it, acknowledgements and greetings excepted.
   */
  lemma InterruptEndsAnswer(
    callId: string, bound: nat, history: seq<Event>, moves: seq<Timed>, i: nat, m: Move, s: nat)
    requires Run(Start(callId, bound, history), moves) && i <= |moves| && Run(Start(callId, bound, history), moves[..i])
    requires var start := Start(callId, bound, history);
             var before, g := After(start, moves[..i]), After(start, moves);
             && before.generation < g.generation
             && s in before.inflight && s in g.inflight
             && before.inflight[s].requestGeneration == g.inflight[s].requestGeneration
             && g.inflight[s].queued && !g.inflight[s].startup && !Bypasses(g.inflight[s].response)
    ensures !Enqueues(After(Start(callId, bound, history), moves), m, s)
  {
    StartSound(callId, bound, history);
    RunStaysSound(Start(callId, bound, history), moves[..i]);
    var before := After(Start(callId, bound, history), moves[..i]);
    assert SubmissionFits(before, before.inflight[s]);
  }

  /**
   At the moment it begins, a turn is seen by the scan if and only if the call has
   no more than 200 retained events.
   */
  lemma FreshTurnSeenExactly(g: Gate, id: int, now: string)
    requires Sound(g) && 0 < g.nextId && id < g.nextId
    requires forall e :: e in g.history && e.callId == g.callId && IsActivity(e) ==> e.id <= id
    ensures var h := NoteTurn(g, "user_speech_started", "", now);
            HasNewerUserActivity(h, Some(id)) <==>
            |Filter(Window(h.history, h.bound), 0, Some(h.callId))| <= SCAN_LIMIT
  {
    var h := NoteTurn(g, "user_speech_started", "", now);
    var turn := h.history[|h.history| - 1];
    var w := Window(h.history, h.bound);
    var retained := Filter(w, 0, Some(h.callId));
    assert w[|w| - 1] == turn && retained == Filter(w[..|w| - 1], 0, Some(h.callId)) + [turn];
    if |retained| <= SCAN_LIMIT {
      assert Scan(h)[|retained| - 1] == turn;
    } else {
      var front := w[..|w| - 1];
      FilterIsSelection(front, 0, Some(h.callId));
      forall i | 0 <= i < |Scan(h)| ensures !(Scan(h)[i].id > id && IsActivity(Scan(h)[i])) {
        var e := Scan(h)[i];
        assert e == Filter(front, 0, Some(h.callId))[i];
        assert e in Filter(front, 0, Some(h.callId));
        assert e in front && e in g.history;
      }
    }
  }

  // ------------------------------------------------- interrupted persistent answers

  ghost predicate Accounted(g: Gate) {
    && |g.trace.resumed| + g.trace.notResumed + (if g.resume.Some? then 1 else 0) <= g.trace.remembered
    && (g.last.Some? ==> g.last.value in g.trace.spoken)
    && (g.resume.Some? ==> g.resume.value in g.trace.spoken)
    && (forall x :: x in g.trace.resumed ==> x in g.trace.spoken)
  }

  lemma InterruptAccounted(g: Gate, active: bool, reason: string, now: string)
    requires Accounted(g)
    ensures Accounted(Interrupted(g, active, reason, now))
  {
  }

  lemma BargeInAccounted(g: Gate, active: bool, now: string)
    requires Accounted(g)
    ensures Accounted(BargeIn(g, active, now))
  {
  }

  lemma SpeechAccounted(g: Gate, bargeIn: bool, now: string)
    requires Accounted(g)
    ensures Accounted(SpeechStarted(g, bargeIn, now))
  {
    var heard := Heard(g, now);
    assert Accounted(heard);
    BargeInAccounted(heard, HasActivePersistent(heard), now);
  }

  lemma CutAccounted(g: Gate, cut: bool, now: string)
    requires Accounted(g)
    ensures Accounted(CutShort(g, cut, now))
  {
  }

  lemma AdmitWithAccounted(g: Gate, s: nat, sub: Submission, duplicate: bool, busy: bool, stale: bool, now: string)
    requires Accounted(g)
    ensures Accounted(AdmitWith(g, s, sub, duplicate, busy, stale, now))
  {
  }

  lemma AdmitAccounted(g: Gate, s: nat, now: string)
    requires Accounted(g) && s in g.inflight
    ensures Accounted(Admit(g, s, now))
  {
    var r := g.inflight[s].response;
    var received := Received(g, r, now);
    assert Accounted(received);
    CutAccounted(received, Bypasses(r) && Plays(received.pending, "progress_ack"), now);
    var h := Cleared(received, r, now);
    var sub := Submission(r, IsStartup(received, r.responseTo), IsPersistent(received, r), 0, false, Admitted);
    AdmitWithAccounted(h, s, sub, r.kind == Some("progress_ack") && Plays(h.pending, "progress_ack"),
                       HasActivePersistent(h), HasNewerUserActivity(h, r.responseTo), now);
  }

  lemma ProceedAccounted(g: Gate, s: nat, newer: bool, now: string)
    requires Accounted(g) && s in g.inflight
    ensures Accounted(ProceedWith(g, s, newer, now))
  {
  }

  lemma WakeAccounted(g: Gate, s: nat, newer: bool, now: string)
    requires Accounted(g) && s in g.inflight
    ensures Accounted(WakeWith(g, s, newer, now))
  {
  }

  lemma InputAccounted(g: Gate, now: string)
    requires Accounted(g)
    ensures Accounted(TextInput(g, now)) && Accounted(Greet(g, now)) && Accounted(SpeechFinished(g, now))
  {
  }

  lemma JudgedAccounted(g: Gate, s: nat, verdict: Verdict, audio: seq<Sample>, now: string)
    requires Accounted(g) && s in g.inflight
    ensures Accounted(Judged(g, s, verdict, audio, now))
  {
    var r := g.inflight[s].response;
    var said := Spoken(r.text, r.responseTo, r.kind);
    assert forall x :: x in g.trace.spoken ==> x in g.trace.spoken + [said];
  }

  lemma EndedAccounted(g: Gate, finished: bool, m: Meta, now: string)
    requires Accounted(g)
    ensures Accounted(Ended(g, finished, m, now))
  {
  }

  lemma SentAccounted(g: Gate, n: nat, now: string)
    requires Accounted(g) && 1 <= n && g.pending != []
    ensures Accounted(Sent(g, n, now))
  {
    var packet := Head(g.pending[0], n);
    var begun := Begun(g.(pending := Tail(g.pending[0], n) + g.pending[1..]), packet.started, now);
    assert Accounted(begun);
    EndedAccounted(begun, packet.finished, packet.data, now);
  }

  lemma TickAccounted(g: Gate, n: nat, now: string)
    requires Accounted(g) && 1 <= n
    ensures Accounted(Tick(g, n, now))
  {
    if g.pending != [] {
      InterruptAccounted(g, HasActivePersistent(g), "caller_is_speaking", now);
      SentAccounted(g, n, now);
    }
  }

  lemma ResumeAccounted(g: Gate, s: nat, reason: string, now: string)
    requires Accounted(g)
    ensures Accounted(MaybeResume(g, s, reason, now))
  {
  }

  lemma StepAccounted(g: Gate, m: Move, now: string)
    requires Accounted(g) && Possible(g, m)
    ensures Accounted(Next(g, m, now))
  {
    match m
    case OnSpeechStarted(bargeIn) => SpeechAccounted(g, bargeIn, now);
    case OnInterrupt(reason) => InterruptAccounted(g, HasActivePersistent(g), reason, now);
    case OnAdmit(s) => AdmitAccounted(g, s, now);
    case OnChunk(s, audio) => JudgedAccounted(g, s, JudgeChunk(g, g.inflight[s]), audio, now);
    case OnWakeHeld(s) => JudgedAccounted(g, s, JudgeHeld(g, g.inflight[s]), g.inflight[s].stage.audio, now);
    case OnTick(n) => TickAccounted(g, n, now);
    case OnMaybeResume(s, reason) => ResumeAccounted(g, s, reason, now);
    case OnTextInput(_) => InputAccounted(g, now);
    case OnGreet => InputAccounted(g, now);
    case OnSpeechFinished => InputAccounted(g, now);
    case OnProceed(s) => ProceedAccounted(g, s, HasNewerUserActivity(g, g.inflight[s].response.responseTo), now);
    case OnWakeDeferred(s) => WakeAccounted(g, s, HasNewerUserActivity(g, g.inflight[s].response.responseTo), now);
    case OnFinish(_, _) =>
    case OnRequest(_) =>
    case OnOtherEvent(_, _, _) =>
    case OnArrive(_, _) =>
  }

  /**
   Over every run, resumed answers plus answers dropped instead of resumed, plus
   one if a resume is pending, never exceed the interruptions remembered; and
   every resumed answer is one whose audio was enqueued.
   */
  lemma {:induction false} ResumesAreAccounted(callId: string, bound: nat, history: seq<Event>, moves: seq<Timed>)
    requires Run(Start(callId, bound, history), moves)
    ensures Accounted(After(Start(callId, bound, history), moves))
  {
    if moves != [] {
      ResumesAreAccounted(callId, bound, history, moves[..|moves| - 1]);
      StepAccounted(After(Start(callId, bound, history), moves[..|moves| - 1]),
                    moves[|moves| - 1].move, moves[|moves| - 1].now);
    }
  }
}
