/**
 The session object whose methods are the steps of the response gate
 (CallSession in voicebot/calls.py).  Each method is proved to make exactly the
 step of module ResponseGate that carries its name.
 */
module CallSession {
  import opened Common
  import opened Strings
  import opened Events
  import opened Playback
  import G = ResponseGate
  import R = ResponseGateRuns

  lemma AnyDeferred(g: G.Gate, ids: set<int>)
    requires forall id :: id in ids <==> exists p :: p in g.pending && p.data.responseTo == Some(id)
    ensures (exists id :: id in ids && G.IsColleagueRequest(g, id)) <==>
            exists i :: 0 <= i < |g.pending| && G.ShouldDefer(g, g.pending[i].data.responseTo)
  {
    if id :| id in ids && G.IsColleagueRequest(g, id) {
      var p :| p in g.pending && p.data.responseTo == Some(id);
      var i :| 0 <= i < |g.pending| && g.pending[i] == p;
      assert G.ShouldDefer(g, g.pending[i].data.responseTo);
    }
    if i :| 0 <= i < |g.pending| && G.ShouldDefer(g, g.pending[i].data.responseTo) {
      assert g.pending[i] in g.pending;
      assert g.pending[i].data.responseTo.value in ids;
    }
  }

  class CallSession {
    const callId: string
    const events: EventStore
    const playback: PlaybackBuffer
    var recording: bool
    var generation: nat
    var requestGenerations: map<int, nat>
    var startupIds: set<int>
    var startupGuard: bool
    var last: Option<G.Spoken>
    var resume: Option<G.Spoken>
    var turn: nat
    /** The local variables of the submissions in flight. */
    var inflight: map<nat, G.Submission>
    ghost var trace: G.Trace

    ghost predicate Valid()
      reads this, events, playback
    {
      events.Counting() && playback.Valid()
    }

    ghost function State(): G.Gate
      requires Valid()
      reads this, events, playback
    {
      G.Gate(callId, events.maxContextEvents, events.history, events.nextId, recording, generation,
             requestGenerations, startupIds, startupGuard, playback.Pending(), last, resume, turn, inflight, trace)
    }

    /** What every run of the gate keeps. */
    ghost predicate Healthy()
      reads this, events, playback
    {
      Valid() && R.Sound(State()) && R.Accounted(State()) && R.AllOverdue(State())
    }

    constructor (callId: string, events: EventStore)
      requires events.Counting() && events.nextId == NextId(events.history)
      ensures Valid() && State() == G.Start(callId, events.maxContextEvents, events.history)
      ensures this.events == events && fresh(playback)
      ensures Healthy()
    {
      this.callId, this.events := callId, events;
      playback := new PlaybackBuffer();
      recording, generation, requestGenerations, startupIds, startupGuard := false, 0, map[], {}, false;
      last, resume, turn, inflight := None, None, 0, map[];
      trace := G.Trace({}, {}, [], 0, [], 0);
      new;
      R.StartSound(callId, events.maxContextEvents, events.history);
    }

    // ------------------------------------------------------------ observations

    method HasNewerUserActivity(responseTo: Option<int>) returns (newer: bool)
      requires Valid()
      ensures newer == G.HasNewerUserActivity(State(), responseTo)
    {
      if responseTo.None? {
        return false;
      }
      var scanned := events.ListEvents(0, Some(callId), G.SCAN_LIMIT);
      assert scanned == G.Scan(State());
      newer := false;
      for i := 0 to |scanned|
        invariant newer <==> exists j :: 0 <= j < i && scanned[j].id > responseTo.value && G.IsActivity(scanned[j])
      {
        if scanned[i].id > responseTo.value && G.IsActivity(scanned[i]) {
          newer := true;
        }
      }
    }

    method ShouldDefer(responseTo: Option<int>) returns (defer: bool)
      requires Valid()
      ensures defer == G.ShouldDefer(State(), responseTo)
    {
      if responseTo.None? {
        return false;
      }
      var request := events.GetEvent(responseTo.value);
      defer := request.Some? && request.value.kind == "agent_response_requested" &&
        "reason" in request.value.data && request.value.data["reason"] == Text("colleague_result");
    }

    method PlaysKind(kind: string) returns (plays: bool)
      requires Valid() && kind != ""
      ensures plays == G.Plays(State().pending, kind)
    {
      var kinds := playback.ActiveResponseKinds();
      plays := kind in kinds;
    }

    method HasActivePersistent() returns (active: bool)
      requires Valid()
      ensures active == G.HasActivePersistent(State())
    {
      var acknowledging := PlaysKind("call_control_ack");
      var answering := PlaysKind("colleague_result");
      var ids := playback.ActiveResponseEventIds();
      var deferred := exists id :: id in ids && ColleagueRequest(id);
      AnyDeferred(State(), ids);
      active := acknowledging || answering || deferred;
    }

    predicate ColleagueRequest(id: int)
      requires Valid()
      reads this, events, playback
      ensures ColleagueRequest(id) == G.IsColleagueRequest(State(), id)
    {
      var e := Find(events.events, id);
      e.Some? && e.value.kind == "agent_response_requested" &&
      "reason" in e.value.data && e.value.data["reason"] == Text("colleague_result")
    }

    // ----------------------------------------------------------------- effects

    method Note(kind: string, reason: string, now: string) returns (event: Event)
      requires Valid()
      modifies events
      ensures Valid() && State() == G.Note(old(State()), kind, reason, now)
      ensures event.id == old(events.nextId)
    {
      event := events.Append(callId, kind, now, map["reason" := Text(reason)]);
    }

    method Silence(reason: string, now: string)
      requires Valid()
      modifies events, playback
      ensures Valid() && State() == G.Silence(old(State()), reason, now)
    {
      var wasPlaying := playback.Interrupt();
      if wasPlaying {
        var _ := Note("bot_playback_interrupted", reason, now);
      }
    }

    method RememberInterruptedPersistent(now: string)
      requires Valid()
      modifies this`resume, this`trace, events
      ensures Valid() && State() == G.Remember(old(State()), now)
    {
      var active := HasActivePersistent();
      if !active || last.None? {
        return;
      }
      resume := last;
      trace := trace.(remembered := trace.remembered + 1);
      var _ := Note("agent_response_deferred", "persistent_response_interrupted", now);
    }

    method EmitAgentRequest(reason: string, now: string) returns (request: Event)
      requires Valid()
      modifies this`requestGenerations, events
      ensures Valid() && State() == G.EmitRequest(old(State()), reason, now)
      ensures request.id == old(events.nextId)
    {
      request := Note("agent_response_requested", reason, now);
      requestGenerations := requestGenerations[request.id := generation];
    }

    // ------------------------------------------------------------------- steps

    method SpeechStarted(bargeIn: bool, now: string)
      requires Valid()
      modifies this, events, playback
      ensures Valid() && State() == G.SpeechStarted(old(State()), bargeIn, now)
    {
      Hear(now);
      var active := playback.IsActive();
      if bargeIn && active {
        RememberInterruptedPersistent(now);
      }
      if bargeIn {
        Silence("user_speech_started", now);
      }
    }

    method Hear(now: string)
      requires Valid()
      modifies this, events
      ensures Valid() && State() == G.Heard(old(State()), now)
    {
      recording := true;
      turn := turn + 1;
      NoteTurn("user_speech_started", "", now);
      generation := generation + 1;
    }

    /** The event with which a turn of the caller begins. */
    method NoteTurn(kind: string, reason: string, now: string)
      requires Valid()
      modifies this`trace, events
      ensures Valid() && State() == G.NoteTurn(old(State()), kind, reason, now)
    {
      var begun := Note(kind, reason, now);
      trace := trace.(turns := trace.turns + {begun.id});
    }

    method SpeechFinished(now: string)
      requires Valid()
      modifies this`recording, events
      ensures Valid() && State() == G.SpeechFinished(old(State()), now)
    {
      recording := false;
      var _ := Note("user_speech_finished", "", now);
    }

    /** Blank text is refused before anything changes. */
    method SubmitUserText(text: string, now: string) returns (r: Result<Event>)
      requires Valid()
      modifies this, events, playback
      ensures Valid() && (r.Ok? <==> Strip(text) != "")
      ensures State() == if r.Ok? then G.TextInput(old(State()), now) else old(State())
    {
      if Strip(text) == "" {
        return Err("text is required");
      }
      turn := turn + 1;
      generation := generation + 1;
      assert State() == G.Typed(old(State()));
      Silence("text_input", now);
      var request := TurnAndRequest(now);
      return Ok(request);
    }

    method TurnAndRequest(now: string) returns (request: Event)
      requires Valid()
      modifies this, events
      ensures Valid() && State() == G.TurnAndRequest(old(State()), now)
    {
      NoteTurn("user_transcript", "text_input", now);
      request := EmitAgentRequest("text_input", now);
    }

    method Greet(now: string)
      requires Valid()
      modifies this, events
      ensures Valid() && State() == G.Greet(old(State()), now)
    {
      var request := EmitAgentRequest("call_connected", now);
      startupIds := startupIds + {request.id};
      trace := trace.(greetings := trace.greetings + {request.id});
    }

    method InterruptPlayback(reason: string, now: string)
      requires Valid()
      modifies this, events, playback
      ensures Valid() && State() == G.InterruptPlayback(old(State()), reason, now)
    {
      RememberInterruptedPersistent(now);
      var interrupted := playback.Interrupt();
      generation := generation + 1;
      var _ := Note("bot_playback_interrupted", reason, now);
    }

    method Drop(s: nat, reason: string, now: string)
      requires Valid()
      modifies this`inflight, events
      ensures Valid() && State() == G.Drop(old(State()), s, reason, now)
    {
      inflight := inflight - {s};
      var _ := Note("agent_response_dropped", reason, now);
    }

    method Arrive(s: nat, response: G.Response)
      requires Valid()
      modifies this`inflight
      ensures Valid() && State() == G.Arrive(old(State()), s, response)
    {
      inflight := inflight[s := G.Submission(response, false, false, 0, false, G.Arrived)];
    }

    method Admit(s: nat, now: string)
      requires Valid() && s in inflight
      modifies this`inflight, events, playback
      ensures Valid() && State() == G.Admit(old(State()), s, now)
    {
      var sub := Receive(inflight[s].response, now);
      AdmitChecked(s, sub, now);
    }

    method Receive(r: G.Response, now: string) returns (sub: G.Submission)
      requires Valid()
      modifies events, playback
      ensures Valid() && State() == G.Cleared(G.Received(old(State()), r, now), r, now)
      ensures var received := G.Received(old(State()), r, now);
              var startup, persistent := G.IsStartup(received, r.responseTo), G.IsPersistent(received, r);
              sub == G.Submission(r, startup, persistent, 0, false, G.Admitted)
    {
      var _ := Note(if r.partial then "agent_response_partial" else "agent_response_received", "", now);
      assert State() == G.Received(old(State()), r, now);
      var startup := r.responseTo.Some? && r.responseTo.value in startupIds;
      var deferring := ShouldDefer(r.responseTo);
      var persistent := (r.kind.Some? && IsPersistentKind(r.kind.value)) || deferring;
      sub := G.Submission(r, startup, persistent, 0, false, G.Admitted);
      InterruptProgress(r, now);
    }

    method InterruptProgress(r: G.Response, now: string)
      requires Valid()
      modifies events, playback
      ensures Valid() && State() == G.Cleared(old(State()), r, now)
    {
      var progress := PlaysKind("progress_ack");
      if r.kind == Some("call_control_ack") && progress {
        var _ := playback.Interrupt();
        var _ := Note("bot_playback_interrupted", "call_control_ack_priority", now);
      }
    }

    method AdmitChecked(s: nat, sub: G.Submission, now: string)
      requires Valid()
      modifies this`inflight, events
      ensures Valid()
      ensures State() == G.AdmitWith(old(State()), s, sub,
                sub.response.kind == Some("progress_ack") && G.Plays(old(State()).pending, "progress_ack"),
                G.HasActivePersistent(old(State())),
                G.HasNewerUserActivity(old(State()), sub.response.responseTo), now)
    {
      var progress := PlaysKind("progress_ack");
      if sub.response.kind == Some("progress_ack") && progress {
        Drop(s, "duplicate_active_progress_ack", now);
        return;
      }
      var busy := HasActivePersistent();
      if !sub.startup && !sub.persistent && busy {
        Drop(s, "active_colleague_result_playback", now);
        return;
      }
      var newer := HasNewerUserActivity(sub.response.responseTo);
      if newer && !sub.startup && !sub.persistent {
        Drop(s, "stale_response_after_new_caller_speech", now);
        return;
      }
      inflight := inflight[s := sub];
    }

    method Proceed(s: nat, now: string)
      requires Valid() && s in inflight
      modifies this`inflight, events
      ensures Valid() && State() == G.Proceed(old(State()), s, now)
    {
      var sub := inflight[s];
      if recording && !sub.startup && !G.Bypasses(sub.response) {
        var _ := Note("agent_response_deferred", "caller_is_speaking", now);
        inflight := inflight[s := sub.(stage := G.Deferred)];
        return;
      }
      var responseTo := sub.response.responseTo;
      var at := if responseTo.Some? && responseTo.value in requestGenerations
                then requestGenerations[responseTo.value] else generation;
      var newer := HasNewerUserActivity(responseTo);
      if at != generation && newer && !sub.startup && !sub.persistent {
        Drop(s, "stale_response_after_new_caller_speech", now);
        return;
      }
      var _ := Note("tts_started", "", now);
      inflight := inflight[s := sub.(requestGeneration := at, queued := false, stage := G.Speaking)];
    }

    method WakeDeferred(s: nat, now: string)
      requires Valid() && s in inflight
      modifies this`inflight, events
      ensures Valid() && State() == G.WakeDeferred(old(State()), s, now)
    {
      var sub := inflight[s];
      var newer := HasNewerUserActivity(sub.response.responseTo);
      if !recording && (sub.persistent || !newer) {
        Arrive(s, sub.response);
      } else {
        Drop(s, "caller_is_speaking", now);
      }
    }

    method OfferChunk(s: nat, audio: seq<Sample>, now: string)
      requires Valid() && s in inflight
      modifies this, events, playback
      ensures Valid()
      ensures State() == G.Judged(old(State()), s, G.JudgeChunk(old(State()), old(inflight)[s]), audio, now)
    {
      var sub := inflight[s];
      var newer := HasNewerUserActivity(sub.response.responseTo);
      if newer && !sub.startup && !sub.persistent {
        Drop(s, "stale_response_after_new_caller_speech", now);
        return;
      }
      if (recording || sub.requestGeneration != generation) && !sub.startup && !G.Bypasses(sub.response) {
        if !sub.queued && recording {
          var _ := Note("agent_response_deferred", "caller_started_speaking_during_tts", now);
          inflight := inflight[s := sub.(stage := G.Holding(audio))];
          return;
        }
        WakeHeld(s, audio, now);
        return;
      }
      SpeakChunk(s, audio, now);
    }

    /** A chunk is in hand and the wait, if there was one, is over. */
    method WakeHeld(s: nat, audio: seq<Sample>, now: string)
      requires Valid() && s in inflight
      modifies this, events, playback
      ensures Valid()
      ensures State() == G.Judged(old(State()), s, G.JudgeHeld(old(State()), old(inflight)[s]), audio, now)
    {
      var sub := inflight[s];
      var newer := HasNewerUserActivity(sub.response.responseTo);
      if sub.queued || recording || (sub.requestGeneration != generation && newer && !sub.persistent) {
        Drop(s, "caller_started_speaking_during_tts_or_after_request", now);
        return;
      }
      SpeakChunk(s, audio, now);
    }

    method SpeakChunk(s: nat, audio: seq<Sample>, now: string)
      requires Valid() && s in inflight
      modifies this, events, playback
      ensures Valid() && State() == G.SpeakChunk(old(State()), s, audio, now)
    {
      var queued := inflight[s].queued;
      EnqueueChunk(s, audio);
      if !queued {
        var _ := Note("agent_response_queued", "", now);
      }
    }

    method EnqueueChunk(s: nat, audio: seq<Sample>)
      requires Valid() && s in inflight
      modifies this, playback
      ensures Valid() && State() == G.EnqueueChunk(old(State()), s, audio)
    {
      var sub := inflight[s];
      var r := sub.response;
      var _ := playback.Enqueue(audio, Meta(r.responseTo, r.kind));
      if sub.persistent {
        last := Some(G.Spoken(r.text, r.responseTo, r.kind));
        trace := trace.(spoken := trace.spoken + [G.Spoken(r.text, r.responseTo, r.kind)]);
      } else if !sub.queued {
        resume := None;
      }
      if sub.startup && recording {
        startupGuard := true;
      }
      inflight := inflight[s := sub.(queued := true, stage := G.Speaking)];
    }

    method FinishSynthesis(s: nat, failed: bool, now: string)
      requires Valid() && s in inflight
      modifies this`inflight, this`startupIds, events
      ensures Valid() && State() == G.Finish(old(State()), s, failed, now)
    {
      var sub := inflight[s];
      inflight := inflight - {s};
      if failed || !sub.queued {
        var _ := Note("tts_failed", "", now);
        return;
      }
      var _ := Note("tts_finished", "", now);
      if sub.response.responseTo.Some? {
        startupIds := startupIds - {sub.response.responseTo.value};
      }
    }

    /** One round of the sender; while the caller is recorded it sends silence. */
    method SendTick(packetSamples: nat, now: string) returns (packet: seq<Sample>)
      requires Valid() && 1 <= packetSamples
      modifies this, events, playback
      ensures Valid() && State() == G.Tick(old(State()), packetSamples, now)
      ensures packet == if old(recording) || old(State()).pending == [] then Zeros(packetSamples)
                        else Padded(Head(old(State()).pending[0], packetSamples).payload, packetSamples)
    {
      var active := playback.IsActive();
      if recording {
        if active && !startupGuard {
          InterruptForCaller(now);
        }
        return Zeros(packetSamples);
      }
      if active {
        packet := SendNext(packetSamples, now);
      } else {
        var started, finished, data;
        packet, started, finished, data := playback.NextPacketWithMetadata(packetSamples);
      }
    }

    method InterruptForCaller(now: string)
      requires Valid() && playback.Pending() != []
      modifies this, events, playback
      ensures Valid() && State() == G.InterruptPlayback(old(State()), "caller_is_speaking", now)
    {
      RememberInterruptedPersistent(now);
      var wasPlaying := playback.Interrupt();
      if wasPlaying {
        generation := generation + 1;
        var _ := Note("bot_playback_interrupted", "caller_is_speaking", now);
      }
    }

    method SendNext(packetSamples: nat, now: string) returns (packet: seq<Sample>)
      requires Valid() && 1 <= packetSamples && playback.Pending() != []
      modifies this, events, playback
      ensures Valid() && State() == G.Sent(old(State()), packetSamples, now)
      ensures packet == Padded(Head(old(State()).pending[0], packetSamples).payload, packetSamples)
    {
      var started, finished, data;
      packet, started, finished, data := playback.NextPacketWithMetadata(packetSamples);
      if started {
        startupGuard := false;
        var _ := Note("bot_playback_started", "", now);
      }
      if finished {
        var _ := Note("bot_playback_finished", "", now);
        ForgetFinished(data);
      }
    }

    method ForgetFinished(data: Meta)
      requires Valid()
      modifies this`last, this`resume
      ensures Valid() && State() == G.Forget(old(State()), data)
    {
      if data.kind.Some? && IsPersistentKind(data.kind.value) {
        last, resume := None, None;
      }
    }

    method MaybeResume(s: nat, reason: string, now: string)
      requires Valid()
      modifies this, events
      ensures Valid() && State() == G.MaybeResume(old(State()), s, reason, now)
    {
      var active := playback.IsActive();
      if resume.None? || recording || active {
        return;
      }
      var said := resume.value;
      resume := None;
      if reason != "stt_no_text" {
        trace := trace.(notResumed := trace.notResumed + 1);
        var _ := Note("agent_response_dropped", "interrupted_persistent_response_not_resumed", now);
        return;
      }
      trace := trace.(resumed := trace.resumed + [said]);
      var _ := Note("agent_response_resumed", reason, now);
      Arrive(s, G.Resumption(said));
    }

    // -------------------------------------------------------- the session as a whole

    /** Whatever step is possible, taking it keeps what every run keeps. */
    method Step(m: G.Move, now: string)
      requires Healthy() && G.Possible(State(), m)
      modifies this, events, playback
      ensures Healthy() && State() == G.Next(old(State()), m, now)
    {
      R.StepSound(State(), m, now);
      R.StepAccounted(State(), m, now);
      R.StepOverdue(State(), m, now);
      Perform(m, now);
    }

    method Perform(m: G.Move, now: string)
      requires Valid() && G.Possible(State(), m)
      modifies this, events, playback
      ensures Valid() && State() == G.Next(old(State()), m, now)
    {
      match m
      case OnSpeechStarted(bargeIn) => SpeechStarted(bargeIn, now);
      case OnSpeechFinished => SpeechFinished(now);
      case OnTextInput(text) => var _ := SubmitUserText(text, now);
      case OnRequest(reason) => var _ := EmitAgentRequest(reason, now);
      case OnGreet => Greet(now);
      case OnInterrupt(reason) => InterruptPlayback(reason, now);
      case OnOtherEvent(other, kind, data) => var _ := events.Append(other, kind, now, data);
      case _ => Serve(m, now);
    }

    /** The steps of submissions and of the sender. */
    method Serve(m: G.Move, now: string)
      requires Valid() && G.Possible(State(), m)
      requires !m.OnSpeechStarted? && !m.OnSpeechFinished? && !m.OnTextInput? && !m.OnRequest?
      requires !m.OnGreet? && !m.OnInterrupt? && !m.OnOtherEvent?
      modifies this, events, playback
      ensures Valid() && State() == G.Next(old(State()), m, now)
    {
      match m
      case OnArrive(s, response) => Arrive(s, response);
      case OnAdmit(s) => Admit(s, now);
      case OnProceed(s) => Proceed(s, now);
      case OnWakeDeferred(s) => WakeDeferred(s, now);
      case OnChunk(s, audio) => OfferChunk(s, audio, now);
      case OnWakeHeld(s) => WakeHeld(s, inflight[s].stage.audio, now);
      case OnFinish(s, failed) => FinishSynthesis(s, failed, now);
      case OnTick(packetSamples) => var _ := SendTick(packetSamples, now);
      case OnMaybeResume(s, reason) => MaybeResume(s, reason, now);
    }
  }
}
