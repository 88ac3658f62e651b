/**
 What one event does to a conversation, in terms of the flow's own fields, and
 what validation refuses (voicebot/conversation_flow.py).
 */
module ConversationSteps {
  import opened Common
  import opened Strings
  import opened Events
  import opened Conversation

  // ------------------------------------------------------------------- matching

  /** The same letter, or one in upper and the other in lower case. */
  predicate SameLetter(a: char, b: char) {
    || a == b
    || ('A' <= a <= 'Z' && b as int == a as int + 32)
    || ('A' <= b <= 'Z' && a as int == b as int + 32)
  }

  predicate MentionedAt(text: string, part: string, i: int) {
    0 <= i && i + |part| <= |text| && forall j :: 0 <= j < |part| ==> SameLetter(text[i + j], part[j])
  }

  /** The text contains the part somewhere, in whatever case. */
  predicate Mentions(text: string, part: string) {
    exists i :: 0 <= i <= |text| && MentionedAt(text, part, i)
  }

  lemma LowerLetter(a: string, b: string, i: nat, j: nat)
    requires i < |a| && j < |b|
    ensures Lower(a)[i] == Lower(b)[j] <==> SameLetter(a[i], b[j])
  {
  }

  lemma OccursInLower(text: string, part: string, i: int)
    ensures OccursAt(Lower(text), Lower(part), i) <==> MentionedAt(text, part, i)
  {
    if 0 <= i && i + |part| <= |text| {
      var there := Lower(text)[i..i + |part|];
      forall j | 0 <= j < |part| ensures there[j] == Lower(part)[j] <==> SameLetter(text[i + j], part[j]) {
        LowerLetter(text, part, i + j, j);
      }
      if MentionedAt(text, part, i) {
        assert there == Lower(part);
      }
    }
  }

  /** On its event; and if it names texts, the event's text mentions one of them. */
  predicate Hits(t: Transition, event: string, data: Data) {
    && t.on == event
    && (t.whenTextContains != [] ==>
          exists k :: 0 <= k < |t.whenTextContains| && Mentions(TextOf(data), t.whenTextContains[k]))
  }

  lemma ContainsExactly(text: string, part: string)
    ensures Contains(Lower(text), Lower(part)) <==> Mentions(text, part)
  {
    forall i ensures OccursAt(Lower(text), Lower(part), i) <==> MentionedAt(text, part, i) {
      OccursInLower(text, part, i);
    }
    if Contains(Lower(text), Lower(part)) {
      var i :| 0 <= i <= |Lower(text)| && OccursAt(Lower(text), Lower(part), i);
      assert MentionedAt(text, part, i);
    }
    if Mentions(text, part) {
      var i :| 0 <= i <= |text| && MentionedAt(text, part, i);
      assert OccursAt(Lower(text), Lower(part), i);
    }
  }

  lemma MatchesExactly(t: Transition, event: string, data: Data)
    ensures Matches(t, event, data) <==> Hits(t, event, data)
  {
    forall k | 0 <= k < |t.whenTextContains|
      ensures Contains(Lower(TextOf(data)), Lower(t.whenTextContains[k])) <==>
              Mentions(TextOf(data), t.whenTextContains[k])
    {
      ContainsExactly(TextOf(data), t.whenTextContains[k]);
    }
  }

  /** The number a string of decimal digits stands for. */
  function Parsed(s: string): nat {
    if s == "" || !('0' <= s[|s| - 1] <= '9') then 0
    else 10 * Parsed(s[..|s| - 1]) + (s[|s| - 1] as int - '0' as int)
  }

  /** A number is printed in decimal, with no zero in front. */
  lemma {:induction false} DigitsExactly(n: nat)
    ensures Digits(n) != "" && Parsed(Digits(n)) == n
    ensures forall i :: 0 <= i < |Digits(n)| ==> '0' <= Digits(n)[i] <= '9'
    ensures Digits(n)[0] == '0' ==> n == 0
  {
    if n >= 10 {
      DigitsExactly(n / 10);
      assert Digits(n)[..|Digits(n)| - 1] == Digits(n / 10);
    } else {
      assert Digits(n)[..0] == "";
    }
  }

  /** The text of an event: as it stands, a number printed, a flag by name, and none if there is none. */
  lemma TextOfExactly(data: Data)
    ensures "text" !in data ==> TextOf(data) == ""
    ensures "text" in data ==>
              var v, text := data["text"], TextOf(data);
              && (v.Text? ==> text == v.text) && (v.Fraction? ==> text == v.shown)
              && (v == Flag(true) ==> text == "True") && (v == Flag(false) ==> text == "False")
              && (v.Number? && v.number >= 0 ==> text != "" && text[0] != '-' && Parsed(text) == v.number)
              && (v.Number? && v.number < 0 ==> text != "" && text[0] == '-' && Parsed(text[1..]) == -v.number)
  {
    if "text" in data && data["text"].Number? {
      var n := data["text"].number;
      DigitsExactly(if n < 0 then -n else n);
      assert n < 0 ==> ("-" + Digits(-n))[1..] == Digits(-n);
    }
  }

  // ----------------------------------------------------------------------- steps

  /** The first transition that the event hits, if any. */
  ghost predicate FirstHit(ts: seq<Transition>, event: string, data: Data, i: int) {
    && 0 <= i <= |ts| && (i < |ts| ==> Hits(ts[i], event, data))
    && forall j :: 0 <= j < i ==> !Hits(ts[j], event, data)
  }

  lemma FirstHitExists(ts: seq<Transition>, event: string, data: Data) returns (i: nat)
    ensures FirstHit(ts, event, data, i)
    ensures FirstMatch(ts, event, data) == if i < |ts| then Some(ts[i]) else None
  {
    forall t ensures Matches(t, event, data) <==> Hits(t, event, data) {
      MatchesExactly(t, event, data);
    }
    var m := FirstMatch(ts, event, data);
    if m.Some? {
      i :| 0 <= i < |ts| && ts[i] == m.value && Matches(ts[i], event, data) &&
           forall j :: 0 <= j < i ==> !Matches(ts[j], event, data);
    } else {
      i := |ts|;
    }
  }

  /** The session after an event: where it is, what it knows, and one more entry in its history. */
  ghost predicate Advanced(s: Session, after: Session, event: string, data: Data, next: string, updates: Data) {
    && after.current == next
    && (forall key :: key in after.data <==> key in s.data || key in updates)
    && (forall key :: key in after.data ==>
          after.data[key] == if key in updates then updates[key] else s.data[key])
    && |after.history| == |s.history| + 1 && after.history[..|s.history|] == s.history
    && after.history[|s.history|] == HistoryItem(event, s.current, next, data)
    && after.callId == s.callId && after.flowId == s.flowId
    && after.workspace == s.workspace && after.voicebot == s.voicebot
  }

  /** The action, if there is one, comes rendered before the others. */
  ghost predicate Asks(
    out: seq<Action>, first: Option<Action>, entry: seq<Action>, after: Session, data: Data, render: Renderer)
  {
    var n := if first.Some? then 1 else 0;
    && |out| == n + |entry|
    && (first.Some? ==>
          Some(out[0].text) == render(first.value.text, after, data) && out[0] == first.value.(text := out[0].text))
    && forall i :: 0 <= i < |entry| ==>
         Some(out[n + i].text) == render(entry[i].text, after, data) && out[n + i] == entry[i].(text := out[n + i].text)
  }

  lemma AsksSo(
    out: seq<Action>, first: Option<Action>, entry: seq<Action>, after: Session, data: Data, render: Renderer)
    requires RenderedFrom(out, OptionalAction(first) + entry, after, data, render)
    ensures Asks(out, first, entry, after, data, render)
  {
    if first.None? {
      assert OptionalAction(first) + entry == entry;
    } else {
      AsksMore(out, first.value, entry, after, data, render);
    }
  }

  lemma AsksMore(
    out: seq<Action>, first: Action, entry: seq<Action>, after: Session, data: Data, render: Renderer)
    requires RenderedFrom(out, [first] + entry, after, data, render)
    ensures Asks(out, Some(first), entry, after, data, render)
  {
    var all := [first] + entry;
    assert all[0] == first;
    forall i | 0 <= i < |entry|
      ensures Some(out[1 + i].text) == render(entry[i].text, after, data)
      ensures out[1 + i] == entry[i].(text := out[1 + i].text)
    {
      assert all[1 + i] == entry[i];
    }
  }

  /**
   An event takes a structured conversation along the first transition it hits: to
   that transition's target, or nowhere if it names none; with its updates; asking
   for its action and, on entering another state, for that state's entry actions.
   If it hits none, the conversation stays and asks for the state's fallback.
   */
  lemma StructuredStepExactly(f: Flow, s: Session, event: string, data: Data, render: Renderer) returns (i: nat)
    requires Validated(f) && s.current in f.states && f.mode == "structured"
    requires HandleEvent(f, s, event, data, render).Ok?
    ensures FirstHit(f.states[s.current].transitions, event, data, i)
    ensures var ts, r := f.states[s.current].transitions, HandleEvent(f, s, event, data, render).value;
            if i == |ts| then
              && Advanced(s, r.session, event, data, s.current, map[]) && !r.transitioned
              && Asks(r.actions, f.states[s.current].fallback, [], r.session, data, render)
            else
              var next := if ts[i].to.None? || ts[i].to == Some("") then s.current else ts[i].to.value;
              && next in f.states && Advanced(s, r.session, event, data, next, ts[i].updates)
              && (r.transitioned <==> next != s.current)
              && Asks(r.actions, ts[i].action, if r.transitioned then f.states[next].entryActions else [],
                      r.session, data, render)
  {
    var state := f.states[s.current];
    i := FirstHitExists(state.transitions, event, data);
    StepAdvances(f, s, event, data, render);
    var r := HandleEvent(f, s, event, data, render).value;
    assert f.mode != "freeform" by { assert "structured"[0] != "freeform"[0]; }
    if i == |state.transitions| {
      assert OptionalAction(state.fallback) + [] == OptionalAction(state.fallback);
      AsksSo(r.actions, state.fallback, [], r.session, data, render);
    } else {
      var t := state.transitions[i];
      var entry := if r.transitioned then f.states[r.session.current].entryActions else [];
      AsksSo(r.actions, t.action, entry, r.session, data, render);
    }
  }

  /** A freeform conversation stays where it is, and asks the agent about transcripts only. */
  lemma FreeformStepExactly(f: Flow, s: Session, event: string, data: Data, render: Renderer)
    requires Validated(f) && s.current in f.states && f.mode == "freeform"
    requires HandleEvent(f, s, event, data, render).Ok?
    ensures var r := HandleEvent(f, s, event, data, render).value;
            && Advanced(s, r.session, event, data, s.current, map[]) && !r.transitioned
            && (event != "user_transcript" ==> r.actions == [])
            && (event == "user_transcript" ==>
                  Asks(r.actions, Some(Action("agent_request", f.states[s.current].prompt, map[])), [],
                       r.session, data, render))
  {
    StepAdvances(f, s, event, data, render);
  }

  /** A conversation starts in the initial state, with nothing known, asking for that state's entry actions. */
  lemma StartExactly(f: Flow, callId: string, render: Renderer)
    requires Validated(f) && StartEngine(f, callId, render).Ok?
    ensures var r := StartEngine(f, callId, render).value;
            && r.session == Session(callId, f.id, f.initial, f.workspace, f.voicebot, map[], []) && !r.transitioned
            && Asks(r.actions, None, f.states[f.initial].entryActions, r.session, map[], render)
  {
    var r := StartEngine(f, callId, render).value;
    RenderAllExactly(f.states[f.initial].entryActions, r.session, map[], render);
    assert [] + f.states[f.initial].entryActions == f.states[f.initial].entryActions;
    AsksSo(r.actions, None, f.states[f.initial].entryActions, r.session, map[], render);
  }

  // ------------------------------------------------------------------ validation

  /** Present, and not empty, zero or false. */
  predicate HasField(data: Data, field: string) {
    field in data &&
    match data[field]
    case Text(text) => text != ""
    case Number(number) => number != 0
    case Fraction(value, _) => value != 0.0
    case Flag(flag) => flag
  }

  /** Speech and requests have words; a task names its provider, and a transfer its target. */
  ghost predicate Doable(a: Action) {
    || (a.kind == "speak" && !Blank(a.text)) || (a.kind == "agent_request" && !Blank(a.text))
    || (a.kind == "subagent_task" && !Blank(a.text) && HasField(a.data, "provider"))
    || (a.kind == "transfer" && HasField(a.data, "target"))
    || a.kind == "hangup" || a.kind == "set_data"
  }

  lemma DoableExactly(a: Action)
    ensures ValidAction(a) <==> Doable(a)
  {
    StripDecides(a.text);
  }

  /** On a known event, naming no blank text, leading to a state of the flow, and asking for something doable. */
  ghost predicate Takeable(f: Flow, t: Transition) {
    && (|| t.on == "call_connected" || t.on == "user_transcript" || t.on == "no_input" || t.on == "timeout"
        || t.on == "agent_result" || t.on == "dtmf" || t.on == "error")
    && (forall c :: c in t.whenTextContains ==> !Blank(c))
    && (t.to.Some? ==> t.to.value in f.states) && (t.action.Some? ==> Doable(t.action.value))
  }

  lemma TakeableExactly(f: Flow, t: Transition)
    ensures ValidTransition(f, t) <==> Takeable(f, t)
  {
    forall c ensures Strip(c) != "" <==> !Blank(c) {
      StripDecides(c);
    }
    if t.action.Some? {
      DoableExactly(t.action.value);
    }
  }

  /** Every state can be acted out. */
  ghost predicate StateHolds(f: Flow, s: StateDefinition) {
    && (forall a :: a in s.entryActions ==> Doable(a)) && (s.fallback.Some? ==> Doable(s.fallback.value))
    && (forall t :: t in s.transitions ==> Takeable(f, t))
  }

  /**
   A flow is accepted if and only if it and its initial state have names, its mode
   is one of two, its states are listed under their own ids, the initial one among
   them, and everything they can do is possible.
   */
  lemma ValidatedExactly(f: Flow)
    ensures Validated(f) <==>
            && !Blank(f.id) && (f.mode == "freeform" || f.mode == "structured") && f.initial in f.states
            && (forall key :: key in f.states ==> !Blank(key) && f.states[key].id == key)
            && (forall key :: key in f.states ==> StateHolds(f, f.states[key]))
  {
    forall s ensures Strip(s) != "" <==> !Blank(s) {
      StripDecides(s);
    }
    forall s ensures ValidState(f, s) <==> StateHolds(f, s) {
      ValidStateHolds(f, s);
    }
  }

  lemma ValidStateHolds(f: Flow, s: StateDefinition)
    ensures ValidState(f, s) <==> StateHolds(f, s)
  {
    forall a ensures ValidAction(a) <==> Doable(a) {
      DoableExactly(a);
    }
    forall t ensures ValidTransition(f, t) <==> Takeable(f, t) {
      TakeableExactly(f, t);
    }
  }
}
