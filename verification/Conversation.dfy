/**
 The conversation flow engine and its session store (voicebot/conversation_flow.py).
 */
module Conversation {
  import opened Common
  import opened Strings
  import opened Events

  datatype Action = Action(kind: string, text: string, data: Data)

  datatype Transition = Transition(
    on: string, to: Option<string>, action: Option<Action>, whenTextContains: seq<string>, updates: Data)

  datatype StateDefinition = StateDefinition(
    id: string, entryActions: seq<Action>, transitions: seq<Transition>, prompt: string, fallback: Option<Action>)

  datatype Flow = Flow(
    id: string, workspace: Option<string>, voicebot: Option<string>, mode: string, initial: string,
    states: map<string, StateDefinition>)

  datatype HistoryItem = HistoryItem(event: string, state: string, nextState: string, data: Data)

  datatype Session = Session(
    callId: string, flowId: string, current: string, workspace: Option<string>, voicebot: Option<string>,
    data: Data, history: seq<HistoryItem>)

  datatype StepResult = StepResult(session: Session, actions: seq<Action>, transitioned: bool)

  /** Template rendering, which can see the session and the event; a malformed template does not render. */
  type Renderer = (string, Session, Data) -> Option<string>

  // ---------------------------------------------------------------- validation

  const MODES := ["freeform", "structured"]
  const EVENTS := ["call_connected", "user_transcript", "no_input", "timeout", "agent_result", "dtmf", "error"]
  const ACTIONS := ["speak", "agent_request", "subagent_task", "transfer", "hangup", "set_data"]

  /** A field counts as present if it is there and not falsy. */
  predicate Given(data: Data, field: string) {
    && field in data && data[field] != Text("") && data[field] != Number(0) && data[field] != Flag(false)
    && (data[field].Fraction? ==> data[field].value != 0.0)
  }

  predicate ValidAction(a: Action) {
    && a.kind in ACTIONS
    && (a.kind in ["speak", "agent_request", "subagent_task"] ==> Strip(a.text) != "")
    && (a.kind == "subagent_task" ==> Given(a.data, "provider"))
    && (a.kind == "transfer" ==> Given(a.data, "target"))
  }

  predicate ValidTransition(f: Flow, t: Transition) {
    && t.on in EVENTS
    && (forall c :: c in t.whenTextContains ==> Strip(c) != "")
    && (t.to.Some? ==> t.to.value in f.states)
    && (t.action.Some? ==> ValidAction(t.action.value))
  }

  predicate ValidState(f: Flow, s: StateDefinition) {
    && (forall a :: a in s.entryActions ==> ValidAction(a))
    && (s.fallback.Some? ==> ValidAction(s.fallback.value))
    && (forall t :: t in s.transitions ==> ValidTransition(f, t))
  }

  predicate Validated(f: Flow) {
    && Strip(f.id) != "" && f.mode in MODES && Strip(f.initial) != ""
    && (forall key :: key in f.states ==> Strip(key) != "" && key == f.states[key].id)
    && f.initial in f.states
    && (forall key :: key in f.states ==> ValidState(f, f.states[key]))
  }

  // -------------------------------------------------------------------- engine

  function Lower(s: string): string {
    seq(|s|, i requires 0 <= i < |s| => if 'A' <= s[i] <= 'Z' then (s[i] as int + 32) as char else s[i])
  }

  predicate Contains(s: string, part: string) {
    exists i :: 0 <= i <= |s| && OccursAt(s, part, i)
  }

  function Digits(n: nat): string {
    if n < 10 then ['0' + n as char] else Digits(n / 10) + ['0' + (n % 10) as char]
  }

  /** A value as text; a text stands for itself. */
  function AsText(v: Value): string {
    match v
    case Text(text) => text
    case Number(number) => if number < 0 then "-" + Digits(-number) else Digits(number)
    case Fraction(_, shown) => shown
    case Flag(flag) => if flag then "True" else "False"
  }

  function TextOf(data: Data): string {
    if "text" in data then AsText(data["text"]) else ""
  }

  predicate Matches(t: Transition, event: string, data: Data) {
    && t.on == event
    && (t.whenTextContains == [] ||
        exists i :: 0 <= i < |t.whenTextContains| && Contains(Lower(TextOf(data)), Lower(t.whenTextContains[i])))
  }

  /** The first transition that matches, in the order they are listed. */
  function FirstMatch(ts: seq<Transition>, event: string, data: Data): (m: Option<Transition>)
    ensures m.Some? ==> exists i :: 0 <= i < |ts| && ts[i] == m.value && Matches(ts[i], event, data) &&
                          forall j :: 0 <= j < i ==> !Matches(ts[j], event, data)
    ensures m.None? ==> forall i :: 0 <= i < |ts| ==> !Matches(ts[i], event, data)
  {
    if ts == [] then None
    else if Matches(ts[0], event, data) then Some(ts[0])
    else
      var m := FirstMatch(ts[1..], event, data);
      assert m.Some? ==> exists i :: 1 <= i < |ts| && ts[i] == m.value && Matches(ts[i], event, data) &&
                           forall j :: 0 <= j < i ==> !Matches(ts[j], event, data) by {
        if m.Some? {
          var i :| 0 <= i < |ts[1..]| && ts[1..][i] == m.value && Matches(ts[1..][i], event, data) &&
                   forall j :: 0 <= j < i ==> !Matches(ts[1..][j], event, data);
          assert forall j :: 0 < j < i + 1 ==> ts[j] == ts[1..][j - 1];
          assert ts[i + 1] == m.value;
        }
      }
      assert m.None? ==> forall i :: 1 <= i < |ts| ==> ts[i] == ts[1..][i - 1];
      m
  }

  function Start(f: Flow, callId: string): Session {
    Session(callId, f.id, f.initial, f.workspace, f.voicebot, map[], [])
  }

  function Advance(s: Session, event: string, data: Data, next: string, updates: Data): Session {
    s.(current := next, data := s.data + updates, history := s.history + [HistoryItem(event, s.current, next, data)])
  }

  function Render(a: Action, s: Session, data: Data, render: Renderer): Option<Action> {
    match render(a.text, s, data)
    case None => None
    case Some(text) => Some(a.(text := text))
  }

  /** Rendering stops at the first template that fails. */
  function RenderAll(actions: seq<Action>, s: Session, data: Data, render: Renderer): Option<seq<Action>> {
    if actions == [] then Some([])
    else
      match Render(actions[0], s, data, render)
      case None => None
      case Some(first) =>
        match RenderAll(actions[1..], s, data, render)
        case None => None
        case Some(rest) => Some([first] + rest)
  }

  function OptionalAction(a: Option<Action>): seq<Action> {
    if a.Some? then [a.value] else []
  }

  /** The empty name counts as no target. */
  function Target(t: Transition, current: string): string {
    if t.to.Some? && t.to.value != "" then t.to.value else current
  }

  const UNKNOWN := "references unknown state"
  const UNRENDERED := "malformed template"

  /** The initial session, once the initial state's entry actions have been rendered. */
  function StartEngine(f: Flow, callId: string, render: Renderer): Result<StepResult> {
    if f.initial !in f.states then Err(UNKNOWN)
    else
      match RenderAll(f.states[f.initial].entryActions, Start(f, callId), map[], render)
      case None => Err(UNRENDERED)
      case Some(actions) => Ok(StepResult(Start(f, callId), actions, false))
  }

  function HandleEvent(f: Flow, s: Session, event: string, data: Data, render: Renderer): Result<StepResult> {
    if f.mode == "freeform" then HandleFreeform(f, s, event, data, render)
    else if s.current !in f.states then Err(UNKNOWN)
    else
      var state := f.states[s.current];
      match FirstMatch(state.transitions, event, data)
      case Some(t) =>
        var next := Target(t, s.current);
        if next !in f.states then Err(UNKNOWN)
        else TakeTransition(f, s, t, next, Advance(s, event, data, next, t.updates), data, render)
      case None =>
        var after := Advance(s, event, data, s.current, map[]);
        match RenderAll(OptionalAction(state.fallback), after, data, render)
        case None => Err(UNRENDERED)
        case Some(actions) => Ok(StepResult(after, actions, false))
  }

  function TakeTransition(
    f: Flow, s: Session, t: Transition, next: string, after: Session, data: Data, render: Renderer): Result<StepResult>
    requires next in f.states
  {
    match RenderAll(OptionalAction(t.action), after, data, render)
    case None => Err(UNRENDERED)
    case Some(taken) =>
      if next == s.current then Ok(StepResult(after, taken, false))
      else
        match RenderAll(f.states[next].entryActions, after, data, render)
        case None => Err(UNRENDERED)
        case Some(entered) => Ok(StepResult(after, taken + entered, true))
  }

  function HandleFreeform(f: Flow, s: Session, event: string, data: Data, render: Renderer): Result<StepResult> {
    if s.current !in f.states then Err(UNKNOWN)
    else
      var after := Advance(s, event, data, s.current, map[]);
      if event != "user_transcript" then Ok(StepResult(after, [], false))
      else
        match render(f.states[s.current].prompt, after, data)
        case None => Err(UNRENDERED)
        case Some(text) => Ok(StepResult(after, [Action("agent_request", text, map[])], false))
  }

  datatype Input = Input(event: string, data: Data)

  /** The session after starting and handling events one after another; a step that fails ends the run. */
  function Handled(f: Flow, callId: string, inputs: seq<Input>, render: Renderer): Result<Session> {
    if inputs == [] then
      match StartEngine(f, callId, render)
      case Err(e) => Err(e)
      case Ok(r) => Ok(r.session)
    else
      match Handled(f, callId, inputs[..|inputs| - 1], render)
      case Err(e) => Err(e)
      case Ok(s) =>
        match HandleEvent(f, s, inputs[|inputs| - 1].event, inputs[|inputs| - 1].data, render)
        case Err(e) => Err(e)
        case Ok(r) => Ok(r.session)
  }

  // ------------------------------------------------------------------ rendering

  ghost predicate AllRender(actions: seq<Action>, s: Session, data: Data, render: Renderer) {
    forall i :: 0 <= i < |actions| ==> render(actions[i].text, s, data).Some?
  }

  /** Each action with its template rendered, and nothing else changed. */
  ghost predicate RenderedFrom(out: seq<Action>, actions: seq<Action>, s: Session, data: Data, render: Renderer) {
    && |out| == |actions|
    && forall i :: 0 <= i < |out| ==> Some(out[i].text) == render(actions[i].text, s, data) &&
                                      out[i] == actions[i].(text := out[i].text)
  }

  lemma {:induction false} RenderAllExactly(actions: seq<Action>, s: Session, data: Data, render: Renderer)
    ensures RenderAll(actions, s, data, render).Some? <==> AllRender(actions, s, data, render)
    ensures RenderAll(actions, s, data, render).Some? ==>
              RenderedFrom(RenderAll(actions, s, data, render).value, actions, s, data, render)
  {
    if actions != [] {
      RenderAllExactly(actions[1..], s, data, render);
      assert forall i :: 1 <= i < |actions| ==> actions[i] == actions[1..][i - 1];
      if AllRender(actions, s, data, render) {
        forall i | 0 <= i < |actions[1..]| ensures render(actions[1..][i].text, s, data).Some? {
          assert render(actions[i + 1].text, s, data).Some?;
        }
      }
    }
  }

  lemma RenderParts(a: seq<Action>, b: seq<Action>, s: Session, data: Data, render: Renderer)
    ensures AllRender(a + b, s, data, render) <==> AllRender(a, s, data, render) && AllRender(b, s, data, render)
  {
    if AllRender(a + b, s, data, render) {
      assert forall i :: 0 <= i < |a| ==> (a + b)[i] == a[i];
      assert forall i :: 0 <= i < |b| ==> (a + b)[|a| + i] == b[i];
    }
  }

  lemma RenderedParts(
    out: seq<Action>, a: seq<Action>, more: seq<Action>, b: seq<Action>, s: Session, data: Data, render: Renderer)
    requires RenderedFrom(out, a, s, data, render) && RenderedFrom(more, b, s, data, render)
    ensures RenderedFrom(out + more, a + b, s, data, render)
  {
  }

  /** The actions a step asks for, before rendering. */
  function Planned(f: Flow, s: Session, event: string, data: Data): seq<Action>
    requires s.current in f.states
  {
    var state := f.states[s.current];
    if f.mode == "freeform" then
      if event == "user_transcript" then [Action("agent_request", state.prompt, map[])] else []
    else
      match FirstMatch(state.transitions, event, data)
      case None => OptionalAction(state.fallback)
      case Some(t) =>
        var next := Target(t, s.current);
        OptionalAction(t.action) + if next != s.current && next in f.states then f.states[next].entryActions else []
  }

  // -------------------------------------------------------------- what runs keep

  /** The data updates of the transition taken, if one was. */
  function UpdatesOf(f: Flow, item: HistoryItem): Data
    requires item.state in f.states
  {
    if f.mode == "freeform" then map[]
    else
      match FirstMatch(f.states[item.state].transitions, item.event, item.data)
      case Some(t) => t.updates
      case None => map[]
  }

  function FoldUpdates(f: Flow, history: seq<HistoryItem>): Data
    requires forall i :: 0 <= i < |history| ==> history[i].state in f.states
  {
    if history == [] then map[]
    else FoldUpdates(f, history[..|history| - 1]) + UpdatesOf(f, history[|history| - 1])
  }

  function Inputs(history: seq<HistoryItem>): seq<Input> {
    seq(|history|, i requires 0 <= i < |history| => Input(history[i].event, history[i].data))
  }

  ghost predicate SameIdentity(s: Session, f: Flow, callId: string) {
    s.callId == callId && s.flowId == f.id && s.workspace == f.workspace && s.voicebot == f.voicebot
  }

  ghost predicate Takes(ts: seq<Transition>, i: nat, item: HistoryItem)
    requires i < |ts|
  {
    && Matches(ts[i], item.event, item.data) && item.nextState == Target(ts[i], item.state)
    && forall j :: 0 <= j < i ==> !Matches(ts[j], item.event, item.data)
  }

  /** The entry took the first transition that matched its event, or stayed where none did. */
  ghost predicate Lawful(f: Flow, item: HistoryItem) {
    && item.state in f.states && item.nextState in f.states
    && if f.mode == "freeform" then item.nextState == item.state
       else
         var ts := f.states[item.state].transitions;
         || (exists i :: 0 <= i < |ts| && Takes(ts, i, item))
         || (item.nextState == item.state && forall i :: 0 <= i < |ts| ==> !Matches(ts[i], item.event, item.data))
  }

  /** A session whose history is a chain of lawful steps from the initial state to the current one. */
  ghost predicate Chained(f: Flow, s: Session) {
    && s.current in f.states
    && (forall i :: 0 <= i < |s.history| ==> Lawful(f, s.history[i]))
    && (forall i :: 0 <= i < |s.history| - 1 ==> s.history[i].nextState == s.history[i + 1].state)
    && (if s.history == [] then s.current == f.initial
        else s.history[0].state == f.initial && s.history[|s.history| - 1].nextState == s.current)
  }

  lemma AdvanceKeepsChain(f: Flow, s: Session, event: string, data: Data, next: string, updates: Data)
    requires Chained(f, s) && Lawful(f, HistoryItem(event, s.current, next, data))
    ensures Chained(f, Advance(s, event, data, next, updates))
  {
  }

  /** Where the first matching transition leads, or the same state. */
  function NextState(f: Flow, s: Session, event: string, data: Data): string
    requires s.current in f.states
  {
    if f.mode == "freeform" then s.current
    else
      match FirstMatch(f.states[s.current].transitions, event, data)
      case Some(t) => Target(t, s.current)
      case None => s.current
  }

  lemma NextIsLawful(f: Flow, s: Session, event: string, data: Data)
    requires Validated(f) && s.current in f.states
    ensures Lawful(f, HistoryItem(event, s.current, NextState(f, s, event, data), data))
  {
    var next, state := NextState(f, s, event, data), f.states[s.current];
    var m := FirstMatch(state.transitions, event, data);
    if f.mode != "freeform" && m.Some? {
      var ts := state.transitions;
      var i :| 0 <= i < |ts| && ts[i] == m.value && Matches(ts[i], event, data) &&
               forall j :: 0 <= j < i ==> !Matches(ts[j], event, data);
      assert m.value in ts;
      assert ValidState(f, state) && ValidTransition(f, m.value);
      assert Takes(ts, i, HistoryItem(event, s.current, next, data));
    }
  }

  /** The session after a step, whether or not its templates render. */
  function StepSession(f: Flow, s: Session, event: string, data: Data): Session
    requires s.current in f.states
  {
    var next := NextState(f, s, event, data);
    Advance(s, event, data, next, UpdatesOf(f, HistoryItem(event, s.current, next, data)))
  }

  ghost predicate StepRenders(f: Flow, s: Session, event: string, data: Data, render: Renderer)
    requires s.current in f.states
  {
    AllRender(Planned(f, s, event, data), StepSession(f, s, event, data), data, render)
  }

  /**
   A step of a validated flow succeeds if and only if every template it renders
   does.  It then takes the first matching transition, or stays, applies its
   updates, and returns the planned actions rendered.
   */
  lemma StepAdvances(f: Flow, s: Session, event: string, data: Data, render: Renderer)
    requires Validated(f) && s.current in f.states
    ensures Lawful(f, HistoryItem(event, s.current, NextState(f, s, event, data), data))
    ensures HandleEvent(f, s, event, data, render).Ok? <==> StepRenders(f, s, event, data, render)
    ensures HandleEvent(f, s, event, data, render).Ok? ==>
              var r, after := HandleEvent(f, s, event, data, render).value, StepSession(f, s, event, data);
              && r.session == after && (r.transitioned <==> after.current != s.current)
              && RenderedFrom(r.actions, Planned(f, s, event, data), after, data, render)
  {
    NextIsLawful(f, s, event, data);
    var state, after := f.states[s.current], StepSession(f, s, event, data);
    if f.mode != "freeform" {
      match FirstMatch(state.transitions, event, data)
      case None => RenderAllExactly(OptionalAction(state.fallback), after, data, render);
      case Some(t) => TransitionTaken(f, s, t, Target(t, s.current), after, data, render);
    }
  }

  lemma TransitionTaken(
    f: Flow, s: Session, t: Transition, next: string, after: Session, data: Data, render: Renderer)
    requires next in f.states && after.current == next
    ensures var planned := OptionalAction(t.action) + if next != s.current then f.states[next].entryActions else [];
            var r := TakeTransition(f, s, t, next, after, data, render);
            && (r.Ok? <==> AllRender(planned, after, data, render))
            && (r.Ok? ==>
                  && r.value.session == after && (r.value.transitioned <==> next != s.current)
                  && RenderedFrom(r.value.actions, planned, after, data, render))
  {
    var taken, entry := OptionalAction(t.action), if next != s.current then f.states[next].entryActions else [];
    RenderParts(taken, entry, after, data, render);
    RenderAllExactly(taken, after, data, render);
    RenderAllExactly(entry, after, data, render);
    assert taken + [] == taken;
    if RenderAll(taken, after, data, render).Some? && RenderAll(entry, after, data, render).Some? {
      RenderedParts(RenderAll(taken, after, data, render).value, taken,
                    RenderAll(entry, after, data, render).value, entry, after, data, render);
    }
  }

  ghost predicate Supported(actions: seq<Action>) {
    forall i :: 0 <= i < |actions| ==> actions[i].kind in ACTIONS
  }

  lemma ValidSupported(actions: seq<Action>)
    requires forall a :: a in actions ==> ValidAction(a)
    ensures Supported(actions)
  {
    forall i | 0 <= i < |actions| ensures actions[i].kind in ACTIONS {
      assert ValidAction(actions[i]);
    }
  }

  lemma PlannedSupported(f: Flow, s: Session, event: string, data: Data)
    requires Validated(f) && s.current in f.states
    ensures Supported(Planned(f, s, event, data))
  {
    var state := f.states[s.current];
    assert ValidState(f, state);
    if f.mode != "freeform" {
      match FirstMatch(state.transitions, event, data)
      case None => ValidSupported(OptionalAction(state.fallback));
      case Some(t) =>
        assert t in state.transitions;
        assert ValidTransition(f, t);
        ValidSupported(OptionalAction(t.action));
        var next := Target(t, s.current);
        if next in f.states {
          assert ValidState(f, f.states[next]);
          ValidSupported(f.states[next].entryActions);
        }
    }
  }

  /** A validated flow only ever asks for supported actions. */
  lemma StepSupported(f: Flow, s: Session, event: string, data: Data, render: Renderer)
    requires Validated(f) && s.current in f.states && HandleEvent(f, s, event, data, render).Ok?
    ensures Supported(HandleEvent(f, s, event, data, render).value.actions)
  {
    StepAdvances(f, s, event, data, render);
    PlannedSupported(f, s, event, data);
  }

  /** Entering a state ends with that state's entry actions, rendered against the session after the step. */
  lemma EntryActionsLast(f: Flow, s: Session, event: string, data: Data, render: Renderer) returns (before: nat)
    requires Validated(f) && s.current in f.states && HandleEvent(f, s, event, data, render).Ok?
    ensures before <= 1
    ensures var r := HandleEvent(f, s, event, data, render).value;
            r.transitioned ==>
              && r.session.current in f.states && before <= |r.actions|
              && RenderedFrom(r.actions[before..], f.states[r.session.current].entryActions, r.session, data, render)
  {
    StepAdvances(f, s, event, data, render);
    var m := FirstMatch(f.states[s.current].transitions, event, data);
    before := |OptionalAction(if m.Some? then m.value.action else None)|;
  }

  /** What a session keeps of the events handled so far. */
  ghost predicate Keeps(f: Flow, callId: string, s: Session, inputs: seq<Input>) {
    && Chained(f, s) && Inputs(s.history) == inputs
    && s.data == FoldUpdates(f, s.history)
    && SameIdentity(s, f, callId)
  }

  lemma AdvanceKeeps(f: Flow, callId: string, s: Session, inputs: seq<Input>, last: Input, next: string)
    requires Keeps(f, callId, s, inputs) && Lawful(f, HistoryItem(last.event, s.current, next, last.data))
    ensures var updates := UpdatesOf(f, HistoryItem(last.event, s.current, next, last.data));
            Keeps(f, callId, Advance(s, last.event, last.data, next, updates), inputs + [last])
  {
    var item := HistoryItem(last.event, s.current, next, last.data);
    AdvanceKeepsChain(f, s, last.event, last.data, next, UpdatesOf(f, item));
    assert (s.history + [item])[..|s.history|] == s.history;
    assert Inputs(s.history + [item]) == Inputs(s.history) + [last];
  }

  /** The session the events lead to, whether or not anything renders. */
  function SessionAfter(f: Flow, callId: string, inputs: seq<Input>): Session {
    if inputs == [] then Start(f, callId)
    else
      var s, last := SessionAfter(f, callId, inputs[..|inputs| - 1]), inputs[|inputs| - 1];
      if s.current in f.states then StepSession(f, s, last.event, last.data) else s
  }

  /** The entry actions of the initial state and the planned actions of every step render. */
  ghost predicate RunRenders(f: Flow, callId: string, inputs: seq<Input>, render: Renderer)
    requires f.initial in f.states
  {
    && AllRender(f.states[f.initial].entryActions, Start(f, callId), map[], render)
    && StepsRender(f, callId, inputs, |inputs|, render)
  }

  ghost predicate RendersAt(f: Flow, callId: string, inputs: seq<Input>, k: nat, render: Renderer)
    requires k < |inputs|
  {
    var s := SessionAfter(f, callId, inputs[..k]);
    s.current in f.states && StepRenders(f, s, inputs[k].event, inputs[k].data, render)
  }

  /**
   For every validated flow and every event sequence from the start: no step
   reaches an unknown state; the history has one entry per event and forms a
   chain of first matching transitions; the data is the fold of the updates of
   the transitions taken; and the session's identity is the flow's and the call's.
   */
  lemma {:induction false} RunsStayKnown(f: Flow, callId: string, inputs: seq<Input>)
    requires Validated(f)
    ensures Keeps(f, callId, SessionAfter(f, callId, inputs), inputs)
  {
    if inputs != [] {
      var front, last := inputs[..|inputs| - 1], inputs[|inputs| - 1];
      RunsStayKnown(f, callId, front);
      var s := SessionAfter(f, callId, front);
      NextIsLawful(f, s, last.event, last.data);
      AdvanceKeeps(f, callId, s, front, last, NextState(f, s, last.event, last.data));
      assert front + [last] == inputs;
    }
  }

  ghost predicate StepsRender(f: Flow, callId: string, inputs: seq<Input>, n: nat, render: Renderer)
    requires n <= |inputs|
  {
    forall k :: 0 <= k < n ==> RendersAt(f, callId, inputs, k, render)
  }

  lemma RendersAtPrefix(f: Flow, callId: string, inputs: seq<Input>, n: nat, k: nat, render: Renderer)
    requires k < n <= |inputs|
    ensures RendersAt(f, callId, inputs[..n], k, render) <==> RendersAt(f, callId, inputs, k, render)
  {
    assert inputs[..n][..k] == inputs[..k];
  }

  lemma StepsRenderPrefix(f: Flow, callId: string, inputs: seq<Input>, n: nat, render: Renderer)
    requires n <= |inputs|
    ensures StepsRender(f, callId, inputs[..n], n, render) <==> StepsRender(f, callId, inputs, n, render)
  {
    forall k | 0 <= k < n
      ensures RendersAt(f, callId, inputs[..n], k, render) <==> RendersAt(f, callId, inputs, k, render)
    {
      RendersAtPrefix(f, callId, inputs, n, k, render);
    }
  }

  lemma StepsRenderLast(f: Flow, callId: string, inputs: seq<Input>, n: nat, render: Renderer)
    requires n < |inputs|
    ensures StepsRender(f, callId, inputs, n + 1, render) <==>
            StepsRender(f, callId, inputs, n, render) && RendersAt(f, callId, inputs, n, render)
  {
  }

  lemma RunRendersStep(f: Flow, callId: string, inputs: seq<Input>, render: Renderer)
    requires Validated(f) && inputs != []
    ensures RunRenders(f, callId, inputs, render) <==>
            RunRenders(f, callId, inputs[..|inputs| - 1], render) &&
            RendersAt(f, callId, inputs, |inputs| - 1, render)
  {
    StepsRenderPrefix(f, callId, inputs, |inputs| - 1, render);
    StepsRenderLast(f, callId, inputs, |inputs| - 1, render);
  }

  /**
   A run of a validated flow returns if and only if everything it renders does,
   and then returns the session its events lead to.
   */
  lemma {:induction false} RunReturnsExactly(f: Flow, callId: string, inputs: seq<Input>, render: Renderer)
    requires Validated(f)
    ensures Handled(f, callId, inputs, render).Ok? <==> RunRenders(f, callId, inputs, render)
    ensures Handled(f, callId, inputs, render).Ok? ==>
              Handled(f, callId, inputs, render).value == SessionAfter(f, callId, inputs)
  {
    if inputs == [] {
      RenderAllExactly(f.states[f.initial].entryActions, Start(f, callId), map[], render);
    } else {
      var front, last := inputs[..|inputs| - 1], inputs[|inputs| - 1];
      RunReturnsExactly(f, callId, front, render);
      RunsStayKnown(f, callId, front);
      RunRendersStep(f, callId, inputs, render);
      StepAdvances(f, SessionAfter(f, callId, front), last.event, last.data, render);
    }
  }

  /**
   Replaying the history of a session a run returned reproduces it; with another
   renderer the replay reproduces it or fails to render.
   */
  lemma ReplayReproduces(f: Flow, callId: string, inputs: seq<Input>, render: Renderer, other: Renderer)
    requires Validated(f) && Handled(f, callId, inputs, render).Ok?
    ensures var s := Handled(f, callId, inputs, render).value;
            && Handled(f, callId, Inputs(s.history), render) == Ok(s)
            && (Handled(f, callId, Inputs(s.history), other).Ok? ==>
                  Handled(f, callId, Inputs(s.history), other) == Ok(s))
  {
    RunsStayKnown(f, callId, inputs);
    RunReturnsExactly(f, callId, inputs, render);
    RunReturnsExactly(f, callId, inputs, other);
  }

  lemma LeadingCharacter(s: string)
    requires s != "" && !IsSpace(s[0])
    ensures Strip(s) != ""
  {
    StripDecides(s);
  }

  /** A flow that greets with an unfinished template. */
  function Unfinished(): Flow {
    var greet := Action("speak", "Say {", map[]);
    Flow("greeting", None, None, "structured", "hello",
         map["hello" := StateDefinition("hello", [greet], [], "{text}", None)])
  }

  lemma UnfinishedIsValidated()
    ensures Validated(Unfinished())
  {
    LeadingCharacter("Say {");
    LeadingCharacter("greeting");
    LeadingCharacter("hello");
  }

  /** Validation does not look into templates: this flow is accepted, and cannot even start. */
  lemma MalformedTemplateFails(callId: string, render: Renderer)
    requires forall s, data :: render("Say {", s, data).None?
    ensures Validated(Unfinished()) && Handled(Unfinished(), callId, [], render).Err?
  {
    UnfinishedIsValidated();
  }

  // --------------------------------------------------------------- session store

  predicate Compatible(a: Session, b: Session) {
    a.workspace == b.workspace && a.voicebot == b.voicebot && a.flowId == b.flowId
  }

  class SessionStateStore {
    var sessions: map<string, Session>

    constructor ()
      ensures sessions == map[]
    {
      sessions := map[];
    }

    /** A session may not move across workspaces, voicebots or flows; a refused save changes nothing. */
    method Save(session: Session) returns (r: Result<Session>)
      modifies this
      ensures r.Ok? <==>
                (session.callId in old(sessions) ==>
                   && old(sessions)[session.callId].workspace == session.workspace
                   && old(sessions)[session.callId].voicebot == session.voicebot
                   && old(sessions)[session.callId].flowId == session.flowId)
      ensures r.Ok? ==> r.value == session && sessions == old(sessions)[session.callId := session]
      ensures r.Err? ==> sessions == old(sessions)
    {
      if session.callId in sessions {
        var existing := sessions[session.callId];
        if existing.workspace != session.workspace {
          return Err("cannot move conversation session across workspaces");
        }
        if existing.voicebot != session.voicebot {
          return Err("cannot move conversation session across voicebots");
        }
        if existing.flowId != session.flowId {
          return Err("cannot move conversation session across flows");
        }
      }
      sessions := sessions[session.callId := session];
      return Ok(session);
    }

    method Delete(callId: string) returns (found: bool)
      modifies this
      ensures found == old(callId in sessions) && sessions == old(sessions) - {callId}
    {
      found := callId in sessions;
      sessions := sessions - {callId};
    }
  }

  /** Each stored session was produced by the engine of its call's flow. */
  ghost predicate FromEngines(sessions: map<string, Session>, flows: map<string, Flow>) {
    forall c :: c in sessions ==> c in flows && SameIdentity(sessions[c], flows[c], c)
  }

  /** As long as each call keeps its flow, the store accepts every session the engine produces. */
  method SaveHandled(store: SessionStateStore, ghost flows: map<string, Flow>,
                     f: Flow, callId: string, ghost inputs: seq<Input>, session: Session, ghost render: Renderer)
    returns (r: Result<Session>)
    requires FromEngines(store.sessions, flows)
    requires callId in flows && flows[callId] == f && Validated(f)
    requires Handled(f, callId, inputs, render) == Ok(session)
    modifies store
    ensures r == Ok(session) && FromEngines(store.sessions, flows)
    ensures store.sessions == old(store.sessions)[callId := session]
  {
    RunsStayKnown(f, callId, inputs);
    RunReturnsExactly(f, callId, inputs, render);
    r := store.Save(session);
  }
}
