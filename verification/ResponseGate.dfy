/**
 Whether an agent response may still be spoken (CallSession in voicebot/calls.py).

 Caller speech, text input, interrupts, submitted responses, synthesised chunks
 and the sender's ticks run on different threads.  Each is a step of the state
 machine below; a submission that waits for the caller to fall silent is
 suspended in its stage while other steps run.
 */
module ResponseGate {
  import opened Common
  import opened Events
  import opened Playback
  import opened Strings

  datatype Response = Response(text: string, responseTo: Option<int>, kind: Option<string>, partial: bool)

  /** What a persistent answer said, and to which request. */
  datatype Spoken = Spoken(text: string, responseTo: Option<int>, kind: Option<string>)

  datatype Stage =
    | Arrived            // about to be (re)submitted
    | Admitted           // past the drop checks
    | Deferred           // waiting for silence before synthesis
    | Speaking           // asking for chunks
    | Holding(audio: seq<Sample>)  // waiting for silence with a chunk in hand

  /** The local variables of one submission in flight. */
  datatype Submission = Submission(
    response: Response,
    startup: bool,
    persistent: bool,
    requestGeneration: nat,
    queued: bool,
    stage: Stage)

  /** What happened so far, for stating properties; no step reads it. */
  datatype Trace = Trace(
    turns: set<int>,          // events that began a caller turn
    greetings: set<int>,      // requests for the opening greeting
    spoken: seq<Spoken>,      // persistent answers with audio enqueued
    remembered: nat,          // interrupted persistent answers remembered
    resumed: seq<Spoken>,     // remembered answers submitted again
    notResumed: nat)          // remembered answers dropped instead

  datatype Gate = Gate(
    callId: string,
    bound: nat,
    history: seq<Event>,
    nextId: int,
    recording: bool,
    generation: nat,
    requestGenerations: map<int, nat>,
    startupIds: set<int>,
    startupGuard: bool,
    pending: seq<Piece>,
    last: Option<Spoken>,
    resume: Option<Spoken>,
    turn: nat,
    inflight: map<nat, Submission>,
    trace: Trace)

  function Start(callId: string, bound: nat, history: seq<Event>): Gate {
    Gate(callId, bound, history, NextId(history), false, 0, map[], {}, false, [], None, None, 0, map[],
         Trace({}, {}, [], 0, [], 0))
  }

  // ------------------------------------------------------------ observations

  const SCAN_LIMIT := 200

  /** The scan reads the first 200 retained events of the call, not the latest. */
  function Scan(g: Gate): seq<Event> {
    First(Filter(Window(g.history, g.bound), 0, Some(g.callId)), SCAN_LIMIT)
  }

  predicate IsActivity(e: Event) {
    e.kind == "user_speech_started" || e.kind == "user_transcript"
  }

  predicate HasNewerUserActivity(g: Gate, responseTo: Option<int>) {
    responseTo.Some? && exists i :: 0 <= i < |Scan(g)| && Scan(g)[i].id > responseTo.value && IsActivity(Scan(g)[i])
  }

  predicate IsColleagueRequest(g: Gate, id: int) {
    var e := Find(Window(g.history, g.bound), id);
    e.Some? && e.value.kind == "agent_response_requested" &&
    "reason" in e.value.data && e.value.data["reason"] == Text("colleague_result")
  }

  predicate ShouldDefer(g: Gate, responseTo: Option<int>) {
    responseTo.Some? && IsColleagueRequest(g, responseTo.value)
  }

  predicate IsPersistent(g: Gate, r: Response) {
    (r.kind.Some? && IsPersistentKind(r.kind.value)) || ShouldDefer(g, r.responseTo)
  }

  predicate Bypasses(r: Response) {
    r.kind == Some("call_control_ack")
  }

  predicate IsStartup(g: Gate, responseTo: Option<int>) {
    responseTo.Some? && responseTo.value in g.startupIds
  }

  predicate Plays(pending: seq<Piece>, kind: string) {
    exists i :: 0 <= i < |pending| && ActiveKind(pending[i].data) == kind
  }

  predicate HasActivePersistent(g: Gate) {
    || Plays(g.pending, "call_control_ack")
    || Plays(g.pending, "colleague_result")
    || exists i :: 0 <= i < |g.pending| && ShouldDefer(g, g.pending[i].data.responseTo)
  }

  function ResponseGeneration(g: Gate, responseTo: Option<int>): nat {
    if responseTo.Some? && responseTo.value in g.requestGenerations
    then g.requestGenerations[responseTo.value]
    else g.generation
  }

  // ------------------------------------------------------------------- effects

  function Note(g: Gate, kind: string, reason: string, now: string): Gate {
    g.(history := g.history + [Event(g.nextId, g.callId, kind, now, map["reason" := Text(reason)])],
       nextId := g.nextId + 1)
  }

  function NoteTurn(g: Gate, kind: string, reason: string, now: string): Gate {
    Note(g, kind, reason, now).(trace := g.trace.(turns := g.trace.turns + {g.nextId}))
  }

  function Drop(g: Gate, s: nat, reason: string, now: string): Gate {
    Note(g, "agent_response_dropped", reason, now).(inflight := g.inflight - {s})
  }

  function Set(g: Gate, s: nat, sub: Submission): Gate {
    g.(inflight := g.inflight[s := sub])
  }

  function Silence(g: Gate, reason: string, now: string): Gate {
    if g.pending == [] then g else Note(g.(pending := []), "bot_playback_interrupted", reason, now)
  }

  /** An interrupted persistent answer is kept for later; `active` says that one is playing. */
  function Keep(g: Gate, active: bool, now: string): Gate {
    if !active || g.last.None? then g
    else Note(g.(resume := g.last, trace := g.trace.(remembered := g.trace.remembered + 1)),
              "agent_response_deferred", "persistent_response_interrupted", now)
  }

  function Remember(g: Gate, now: string): Gate {
    Keep(g, HasActivePersistent(g), now)
  }

  function Bump(g: Gate): Gate {
    g.(generation := g.generation + 1)
  }

  function EmitRequest(g: Gate, reason: string, now: string): Gate {
    Note(g, "agent_response_requested", reason, now)
      .(requestGenerations := g.requestGenerations[g.nextId := g.generation])
  }

  // --------------------------------------------------------------------- steps

  function Heard(g: Gate, now: string): Gate {
    Bump(NoteTurn(g.(recording := true, turn := g.turn + 1), "user_speech_started", "", now))
  }

  function BargeIn(g: Gate, active: bool, now: string): Gate {
    Silence(if g.pending != [] then Keep(g, active, now) else g, "user_speech_started", now)
  }

  function SpeechStarted(g: Gate, bargeIn: bool, now: string): Gate {
    var heard := Heard(g, now);
    if bargeIn then BargeIn(heard, HasActivePersistent(heard), now) else heard
  }

  function SpeechFinished(g: Gate, now: string): Gate {
    Note(g.(recording := false), "user_speech_finished", "", now)
  }

  function TurnAndRequest(g: Gate, now: string): Gate {
    EmitRequest(NoteTurn(g, "user_transcript", "text_input", now), "text_input", now)
  }

  function Typed(g: Gate): Gate {
    Bump(g.(turn := g.turn + 1))
  }

  function TextInput(g: Gate, now: string): Gate {
    TurnAndRequest(Silence(Typed(g), "text_input", now), now)
  }

  /** The request for the opening greeting, whose response may start over the caller's voice. */
  function Greet(g: Gate, now: string): Gate {
    EmitRequest(g, "call_connected", now)
      .(startupIds := g.startupIds + {g.nextId}, trace := g.trace.(greetings := g.trace.greetings + {g.nextId}))
  }

  function Interrupted(g: Gate, active: bool, reason: string, now: string): Gate {
    Note(Bump(Keep(g, active, now).(pending := [])), "bot_playback_interrupted", reason, now)
  }

  function InterruptPlayback(g: Gate, reason: string, now: string): Gate {
    Interrupted(g, HasActivePersistent(g), reason, now)
  }

  /** Any other event of any call: transcripts, metrics, other components' requests. */
  function OtherEvent(g: Gate, callId: string, kind: string, data: Data, now: string): Gate {
    g.(history := g.history + [Event(g.nextId, callId, kind, now, data)], nextId := g.nextId + 1)
  }

  function Arrive(g: Gate, s: nat, r: Response): Gate {
    Set(g, s, Submission(r, false, false, 0, false, Arrived))
  }

  function Received(g: Gate, r: Response, now: string): Gate {
    Note(g, if r.partial then "agent_response_partial" else "agent_response_received", "", now)
  }

  /** A call-control acknowledgement cuts short a progress message that is playing. */
  function Cleared(g: Gate, r: Response, now: string): Gate {
    CutShort(g, Bypasses(r) && Plays(g.pending, "progress_ack"), now)
  }

  function CutShort(g: Gate, cut: bool, now: string): Gate {
    if cut
    then Note(g.(pending := []), "bot_playback_interrupted", "call_control_ack_priority", now)
    else g
  }

  /** The drop checks of a submission, up to the first look at the recording flag. */
  function Admit(g: Gate, s: nat, now: string): Gate
    requires s in g.inflight
  {
    var r := g.inflight[s].response;
    var received := Received(g, r, now);
    var h := Cleared(received, r, now);
    var sub := Submission(r, IsStartup(received, r.responseTo), IsPersistent(received, r), 0, false, Admitted);
    AdmitWith(h, s, sub, r.kind == Some("progress_ack") && Plays(h.pending, "progress_ack"),
              HasActivePersistent(h), HasNewerUserActivity(h, r.responseTo), now)
  }

  function AdmitWith(g: Gate, s: nat, sub: Submission, duplicate: bool, busy: bool, stale: bool, now: string): Gate {
    if duplicate then Drop(g, s, "duplicate_active_progress_ack", now)
    else if !sub.startup && !sub.persistent && busy then Drop(g, s, "active_colleague_result_playback", now)
    else if stale && !sub.startup && !sub.persistent then Drop(g, s, "stale_response_after_new_caller_speech", now)
    else Set(g, s, sub)
  }

  /** Wait for silence, or read the generation and begin synthesis. */
  function Proceed(g: Gate, s: nat, now: string): Gate
    requires s in g.inflight
  {
    ProceedWith(g, s, HasNewerUserActivity(g, g.inflight[s].response.responseTo), now)
  }

  function ProceedWith(g: Gate, s: nat, newer: bool, now: string): Gate
    requires s in g.inflight
  {
    var sub := g.inflight[s];
    if g.recording && !sub.startup && !Bypasses(sub.response) then
      Set(Note(g, "agent_response_deferred", "caller_is_speaking", now), s, sub.(stage := Deferred))
    else
      var at := ResponseGeneration(g, sub.response.responseTo);
      if at != g.generation && newer && !sub.startup && !sub.persistent then
        Drop(g, s, "stale_response_after_new_caller_speech", now)
      else
        Set(Note(g, "tts_started", "", now), s, sub.(requestGeneration := at, queued := false, stage := Speaking))
  }

  /** The wait before synthesis is over, by silence or by its deadline. */
  function WakeDeferred(g: Gate, s: nat, now: string): Gate
    requires s in g.inflight
  {
    WakeWith(g, s, HasNewerUserActivity(g, g.inflight[s].response.responseTo), now)
  }

  function WakeWith(g: Gate, s: nat, newer: bool, now: string): Gate
    requires s in g.inflight
  {
    if !g.recording && (g.inflight[s].persistent || !newer)
    then Arrive(g, s, g.inflight[s].response)
    else Drop(g, s, "caller_is_speaking", now)
  }

  datatype Verdict = Stale | Wait | Refuse | Speak

  predicate Overtaken(g: Gate, sub: Submission) {
    && sub.requestGeneration != g.generation
    && HasNewerUserActivity(g, sub.response.responseTo)
    && !sub.persistent
  }

  function JudgeChunk(g: Gate, sub: Submission): Verdict {
    if HasNewerUserActivity(g, sub.response.responseTo) && !sub.startup && !sub.persistent then Stale
    else if (g.recording || sub.requestGeneration != g.generation) && !sub.startup && !Bypasses(sub.response) then
      if !sub.queued && g.recording then Wait
      else JudgeHeld(g, sub)
    else Speak
  }

  function JudgeHeld(g: Gate, sub: Submission): Verdict {
    if sub.queued || g.recording || Overtaken(g, sub) then Refuse else Speak
  }

  function EnqueueChunk(g: Gate, s: nat, audio: seq<Sample>): Gate
    requires s in g.inflight
  {
    var sub := g.inflight[s];
    var r := sub.response;
    var said := Spoken(r.text, r.responseTo, r.kind);
    g.(
      pending := g.pending + [Piece(audio, true, Meta(r.responseTo, r.kind))],
      last := if sub.persistent then Some(said) else g.last,
      resume := if !sub.persistent && !sub.queued then None else g.resume,
      startupGuard := g.startupGuard || (sub.startup && g.recording),
      inflight := g.inflight[s := sub.(queued := true, stage := Speaking)],
      trace := if sub.persistent then g.trace.(spoken := g.trace.spoken + [said]) else g.trace)
  }

  function SpeakChunk(g: Gate, s: nat, audio: seq<Sample>, now: string): Gate
    requires s in g.inflight
  {
    var h := EnqueueChunk(g, s, audio);
    if g.inflight[s].queued then h else Note(h, "agent_response_queued", "", now)
  }

  function Judged(g: Gate, s: nat, verdict: Verdict, audio: seq<Sample>, now: string): Gate
    requires s in g.inflight
  {
    match verdict
    case Stale => Drop(g, s, "stale_response_after_new_caller_speech", now)
    case Wait =>
      Set(Note(g, "agent_response_deferred", "caller_started_speaking_during_tts", now), s,
          g.inflight[s].(stage := Holding(audio)))
    case Refuse => Drop(g, s, "caller_started_speaking_during_tts_or_after_request", now)
    case Speak => SpeakChunk(g, s, audio, now)
  }

  /** Synthesis is over: an answer without audio failed, a startup answer loses its protection. */
  function Finish(g: Gate, s: nat, failed: bool, now: string): Gate
    requires s in g.inflight
  {
    var sub := g.inflight[s];
    var done := g.(inflight := g.inflight - {s});
    if failed || !sub.queued then Note(done, "tts_failed", "", now)
    else
      var noted := Note(done, "tts_finished", "", now);
      if sub.response.responseTo.Some?
      then noted.(startupIds := g.startupIds - {sub.response.responseTo.value})
      else noted
  }

  function Forget(g: Gate, m: Meta): Gate {
    if m.kind.Some? && IsPersistentKind(m.kind.value) then g.(last := None, resume := None) else g
  }

  /** One round of the sender: while the caller is recorded nothing is taken from the queue. */
  function Tick(g: Gate, packetSamples: nat, now: string): Gate
    requires 1 <= packetSamples
  {
    if g.pending == [] then g
    else if g.recording then
      if g.startupGuard then g else InterruptPlayback(g, "caller_is_speaking", now)
    else Sent(g, packetSamples, now)
  }

  /** One packet leaves the queue. */
  function Sent(g: Gate, packetSamples: nat, now: string): Gate
    requires 1 <= packetSamples && g.pending != []
  {
    var packet := Head(g.pending[0], packetSamples);
    Ended(Begun(g.(pending := Tail(g.pending[0], packetSamples) + g.pending[1..]), packet.started, now),
          packet.finished, packet.data, now)
  }

  function Begun(g: Gate, started: bool, now: string): Gate {
    if started then Note(g.(startupGuard := false), "bot_playback_started", "", now) else g
  }

  function Ended(g: Gate, finished: bool, m: Meta, now: string): Gate {
    if finished then Forget(Note(g, "bot_playback_finished", "", now), m) else g
  }

  /** After a turn without usable text, an interrupted persistent answer is taken up again. */
  function MaybeResume(g: Gate, s: nat, reason: string, now: string): Gate {
    if g.resume.None? || g.recording || g.pending != [] then g
    else
      var said := g.resume.value;
      var cleared := g.(resume := None);
      if reason != "stt_no_text" then
        Note(cleared.(trace := g.trace.(notResumed := g.trace.notResumed + 1)),
             "agent_response_dropped", "interrupted_persistent_response_not_resumed", now)
      else
        var resumed := cleared.(trace := g.trace.(resumed := g.trace.resumed + [said]));
        Arrive(Note(resumed, "agent_response_resumed", reason, now), s, Resumption(said))
  }

  function Resumption(said: Spoken): Response {
    var kind := if said.kind.Some? && said.kind.value != "" then said.kind.value else "colleague_result";
    Response(said.text, said.responseTo, Some(kind), false)
  }

  datatype Move =
    | OnSpeechStarted(bargeIn: bool)
    | OnSpeechFinished
    | OnTextInput(text: string)
    | OnRequest(reason: string)
    | OnGreet
    | OnInterrupt(reason: string)
    | OnOtherEvent(callId: string, kind: string, data: Data)
    | OnArrive(s: nat, response: Response)
    | OnAdmit(s: nat)
    | OnProceed(s: nat)
    | OnWakeDeferred(s: nat)
    | OnChunk(s: nat, audio: seq<Sample>)
    | OnWakeHeld(s: nat)
    | OnFinish(s: nat, failed: bool)
    | OnTick(packetSamples: nat)
    | OnMaybeResume(s: nat, reason: string)

  predicate InStage(g: Gate, s: nat, stage: Stage) {
    s in g.inflight && g.inflight[s].stage == stage
  }

  /** Blank text is refused; a step of a submission is possible in its stage; new submissions take unused names. */
  predicate Possible(g: Gate, m: Move) {
    match m
    case OnTextInput(text) => Strip(text) != ""
    case OnArrive(s, _) => s !in g.inflight
    case OnAdmit(s) => InStage(g, s, Arrived)
    case OnProceed(s) => InStage(g, s, Admitted)
    case OnWakeDeferred(s) => InStage(g, s, Deferred)
    case OnChunk(s, _) => InStage(g, s, Speaking)
    case OnWakeHeld(s) => s in g.inflight && g.inflight[s].stage.Holding?
    case OnFinish(s, _) => InStage(g, s, Speaking)
    case OnTick(n) => 1 <= n
    case OnMaybeResume(s, _) => s !in g.inflight
    case _ => true
  }

  function Next(g: Gate, m: Move, now: string): Gate
    requires Possible(g, m)
  {
    match m
    case OnSpeechStarted(bargeIn) => SpeechStarted(g, bargeIn, now)
    case OnSpeechFinished => SpeechFinished(g, now)
    case OnTextInput(_) => TextInput(g, now)
    case OnRequest(reason) => EmitRequest(g, reason, now)
    case OnGreet => Greet(g, now)
    case OnInterrupt(reason) => InterruptPlayback(g, reason, now)
    case OnOtherEvent(callId, kind, data) => OtherEvent(g, callId, kind, data, now)
    case OnArrive(s, r) => Arrive(g, s, r)
    case OnAdmit(s) => Admit(g, s, now)
    case OnProceed(s) => Proceed(g, s, now)
    case OnWakeDeferred(s) => WakeDeferred(g, s, now)
    case OnChunk(s, audio) => Judged(g, s, JudgeChunk(g, g.inflight[s]), audio, now)
    case OnWakeHeld(s) => Judged(g, s, JudgeHeld(g, g.inflight[s]), g.inflight[s].stage.audio, now)
    case OnFinish(s, failed) => Finish(g, s, failed, now)
    case OnTick(n) => Tick(g, n, now)
    case OnMaybeResume(s, reason) => MaybeResume(g, s, reason, now)
  }

  /** Does this step put a chunk of submission `s` into the playback queue? */
  predicate Enqueues(g: Gate, m: Move, s: nat) {
    && s in g.inflight && Possible(g, m)
    && ((m.OnChunk? && m.s == s && JudgeChunk(g, g.inflight[s]).Speak?)
        || (m.OnWakeHeld? && m.s == s && JudgeHeld(g, g.inflight[s]).Speak?))
  }
}
