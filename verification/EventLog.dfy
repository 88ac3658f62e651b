/**
 The event log shared by several processes (JsonEventStore in voicebot/events.py).

 Every append scans the whole file under the file lock, takes the largest valid
 id plus one, and writes one line.  A line counts as valid only if it reads back
 as an event.
 */
module EventLog {
  import opened Common
  import opened Strings
  import opened Events

  /** A parsed JSON object; None where a field is missing or does not convert. */
  datatype RawEvent = RawEvent(
    id: Option<int>,
    callId: Option<string>,
    kind: Option<string>,
    timestamp: Option<string>,
    data: Option<Data>)

  datatype Line = BlankLine | Malformed | NotAnObject | Object(raw: RawEvent)

  function FromDict(raw: RawEvent): Option<Event> {
    match raw
    case RawEvent(Some(id), Some(callId), Some(kind), Some(timestamp), data) =>
      var c, k, t := Strip(callId), Strip(kind), Strip(timestamp);
      if id < 1 || c == "" || k == "" || t == "" then None
      else Some(Event(id, c, k, t, if data.Some? then data.value else map[]))
    case _ => None
  }

  function ToDict(e: Event): RawEvent {
    RawEvent(Some(e.id), Some(e.callId), Some(e.kind), Some(e.timestamp), Some(e.data))
  }

  /** A written event is accepted again exactly if its id is positive and no field is blank. */
  lemma AcceptedExactly(e: Event)
    ensures FromDict(ToDict(e)).Some? <==>
            e.id >= 1 && !Blank(e.callId) && !Blank(e.kind) && !Blank(e.timestamp)
    ensures FromDict(ToDict(e)).Some? ==> FromDict(ToDict(e)).value.id == e.id
  {
    StripDecides(e.callId);
    StripDecides(e.kind);
    StripDecides(e.timestamp);
  }

  /** It reads back unchanged when its fields carry no surrounding whitespace. */
  lemma RoundTrip(e: Event)
    requires e.id >= 1 && Trimmed(e.callId) && Trimmed(e.kind) && Trimmed(e.timestamp)
    ensures FromDict(ToDict(e)) == Some(e)
  {
    StripDecides(e.callId);
    StripDecides(e.kind);
    StripDecides(e.timestamp);
  }

  function Parse(line: Line): Option<Event> {
    if line.Object? then FromDict(line.raw) else None
  }

  /** An object with a positive id and no blank field; `e` is what it says, without outer whitespace. */
  ghost predicate Shows(line: Line, e: Event) {
    && line.Object? && line.raw.id == Some(e.id) && e.id >= 1
    && line.raw.callId.Some? && !Blank(line.raw.callId.value) && e.callId == Strip(line.raw.callId.value)
    && line.raw.kind.Some? && !Blank(line.raw.kind.value) && e.kind == Strip(line.raw.kind.value)
    && line.raw.timestamp.Some? && !Blank(line.raw.timestamp.value) && e.timestamp == Strip(line.raw.timestamp.value)
    && (line.raw.data.Some? ==> e.data == line.raw.data.value) && (line.raw.data.None? ==> e.data == map[])
  }

  lemma ParsedExactly(line: Line, e: Event)
    ensures Parse(line) == Some(e) <==> Shows(line, e)
  {
    if line.Object? {
      match line.raw
      case RawEvent(Some(_), Some(callId), Some(kind), Some(timestamp), _) =>
        StripDecides(callId);
        StripDecides(kind);
        StripDecides(timestamp);
      case _ =>
    }
  }

  /** Writing an event leaves out nothing. */
  lemma WrittenShows(e: Event)
    requires e.id >= 1 && Trimmed(e.callId) && Trimmed(e.kind) && Trimmed(e.timestamp)
    ensures Shows(Object(ToDict(e)), e)
  {
    RoundTrip(e);
    ParsedExactly(Object(ToDict(e)), e);
  }

  // ----------------------------------------------------------------- scanning

  function ValidIds(lines: seq<Line>): seq<int> {
    if lines == [] then []
    else
      var front, last := ValidIds(lines[..|lines| - 1]), Parse(lines[|lines| - 1]);
      if last.Some? then front + [last.value.id] else front
  }

  lemma {:induction false} ValidIdsPositive(lines: seq<Line>)
    ensures forall id :: id in ValidIds(lines) ==> id >= 1
  {
    if lines != [] {
      ValidIdsPositive(lines[..|lines| - 1]);
    }
  }

  function MaxValidId(lines: seq<Line>): int {
    MaxOr(ValidIds(lines), 0)
  }

  method MaxEventIdInJsonl(lines: seq<Line>) returns (maxId: int)
    ensures forall id :: id in ValidIds(lines) ==> id <= maxId
    ensures maxId == 0 || maxId in ValidIds(lines)
    ensures maxId == MaxValidId(lines)
  {
    maxId := 0;
    for i := 0 to |lines|
      invariant maxId == MaxValidId(lines[..i])
    {
      assert lines[..i + 1][..i] == lines[..i];
      if lines[i].Object? {
        var event := FromDict(lines[i].raw);
        if event.Some? {
          var before := ValidIds(lines[..i]);
          assert (before + [event.value.id])[..|before|] == before;
          maxId := Max(maxId, event.value.id);
        }
      }
    }
    assert lines[..|lines|] == lines;
    MaxOrIsMax(ValidIds(lines), 0);
  }

  // ------------------------------------------------------------------ loading

  datatype Diagnostics = Diagnostics(loaded: nat, blank: nat, malformed: nat, invalid: nat, duplicate: nat)

  function Total(d: Diagnostics): nat {
    d.loaded + d.blank + d.malformed + d.invalid + d.duplicate
  }

  /** The events of a file; of several lines with one id the first counts. */
  function Loaded(lines: seq<Line>): seq<Event> {
    if lines == [] then []
    else
      var front, last := Loaded(lines[..|lines| - 1]), Parse(lines[|lines| - 1]);
      if last.Some? && last.value.id !in Ids(front) then front + [last.value] else front
  }

  /** Loading yields each valid id of the file exactly once. */
  lemma {:induction false} LoadedOnce(lines: seq<Line>)
    ensures NoDup(Ids(Loaded(lines)))
    ensures forall id :: id in Ids(Loaded(lines)) <==> id in ValidIds(lines)
  {
    if lines != [] {
      LoadedOnce(lines[..|lines| - 1]);
      var front, last := Loaded(lines[..|lines| - 1]), Parse(lines[|lines| - 1]);
      if last.Some? {
        assert Ids(front + [last.value]) == Ids(front) + [last.value.id];
      }
    }
  }

  /** The first line that shows an event with this id. */
  ghost predicate FirstShown(lines: seq<Line>, k: int, e: Event) {
    && 0 <= k < |lines| && Shows(lines[k], e)
    && forall j, x :: 0 <= j < k && Shows(lines[j], x) ==> x.id != e.id
  }

  /** The places, in order, of the first lines with each id, and what they show. */
  ghost predicate FirstLines(lines: seq<Line>, at: seq<int>, events: seq<Event>) {
    && |at| == |events| && Increasing(at)
    && (forall i :: 0 <= i < |at| ==> FirstShown(lines, at[i], events[i]))
    && (forall k, e :: FirstShown(lines, k, e) ==> e in events)
  }

  lemma EarlierShown(front: seq<Line>, last: Line, k: int, e: Event)
    requires k < |front|
    ensures FirstShown(front + [last], k, e) <==> FirstShown(front, k, e)
  {
    var lines := front + [last];
    if 0 <= k {
      assert lines[k] == front[k];
      assert forall j :: 0 <= j < k ==> lines[j] == front[j];
    }
  }

  lemma OneMoreLoaded(front: seq<Line>, last: Line, at: seq<int>, events: seq<Event>, e: Event)
    requires FirstLines(front, at, events) && FirstShown(front + [last], |front|, e)
    ensures FirstLines(front + [last], at + [|front|], events + [e])
  {
    var lines, at', events' := front + [last], at + [|front|], events + [e];
    assert forall i :: 0 <= i < |at| ==> FirstShown(front, at[i], events[i]) && at[i] < |front|;
    forall i | 0 <= i < |at| ensures FirstShown(lines, at[i], events[i]) {
      EarlierShown(front, last, at[i], events[i]);
    }
    forall k, x | FirstShown(lines, k, x) ensures x in events' {
      if k < |front| {
        EarlierShown(front, last, k, x);
      } else {
        ShownAlike(last, x, e);
      }
    }
  }

  lemma ShownAlike(line: Line, a: Event, b: Event)
    requires Shows(line, a) && Shows(line, b)
    ensures a == b
  {
  }

  lemma NoMoreLoaded(front: seq<Line>, last: Line, at: seq<int>, events: seq<Event>)
    requires FirstLines(front, at, events) && forall e :: !FirstShown(front + [last], |front|, e)
    ensures FirstLines(front + [last], at, events)
  {
    forall i | 0 <= i < |at| ensures FirstShown(front + [last], at[i], events[i]) {
      EarlierShown(front, last, at[i], events[i]);
    }
    forall k, x | FirstShown(front + [last], k, x) ensures x in events {
      if k < |front| {
        EarlierShown(front, last, k, x);
      }
    }
  }

  /** Loaded are, in the order of the file, exactly the events that the first line with their id shows. */
  lemma {:induction false} LoadedExactly(lines: seq<Line>) returns (at: seq<int>)
    ensures FirstLines(lines, at, Loaded(lines))
  {
    at := [];
    if lines != [] {
      var front, last := lines[..|lines| - 1], lines[|lines| - 1];
      at := LoadedExactly(front);
      assert lines == front + [last];
      var e := Parse(last);
      if e.Some? && e.value.id !in Ids(Loaded(front)) {
        NewlyShown(front, last, e.value);
        OneMoreLoaded(front, last, at, Loaded(front), e.value);
        at := at + [|front|];
      } else {
        forall x ensures !FirstShown(front + [last], |front|, x) {
          NotShownAnew(front, last, x);
        }
        NoMoreLoaded(front, last, at, Loaded(front));
      }
    }
  }

  lemma NewlyShown(front: seq<Line>, last: Line, e: Event)
    requires Parse(last) == Some(e) && e.id !in Ids(Loaded(front))
    ensures FirstShown(front + [last], |front|, e)
  {
    var lines := front + [last];
    ParsedExactly(last, e);
    LoadedOnce(front);
    forall j, x | 0 <= j < |front| && Shows(lines[j], x) ensures x.id != e.id {
      ParsedExactly(front[j], x);
      ValidIdOfLine(front, j, x);
    }
  }

  lemma NotShownAnew(front: seq<Line>, last: Line, e: Event)
    requires Parse(last).Some? ==> Parse(last).value.id in Ids(Loaded(front))
    ensures !FirstShown(front + [last], |front|, e)
  {
    ParsedExactly(last, e);
    LoadedOnce(front);
    if Parse(last) == Some(e) {
      var j, x := LineOfValidId(front, e.id);
      ParsedExactly(front[j], x);
      assert (front + [last])[j] == front[j];
    }
  }

  lemma {:induction false} ValidIdOfLine(lines: seq<Line>, j: nat, x: Event)
    requires j < |lines| && Parse(lines[j]) == Some(x)
    ensures x.id in ValidIds(lines)
  {
    if j < |lines| - 1 {
      ValidIdOfLine(lines[..|lines| - 1], j, x);
    }
  }

  lemma {:induction false} LineOfValidId(lines: seq<Line>, id: int) returns (j: nat, x: Event)
    requires id in ValidIds(lines)
    ensures j < |lines| && Parse(lines[j]) == Some(x) && x.id == id
  {
    var front, last := lines[..|lines| - 1], lines[|lines| - 1];
    if id in ValidIds(front) {
      j, x := LineOfValidId(front, id);
    } else {
      j, x := |front|, Parse(last).value;
    }
  }

  datatype Reason = Empty | NotJson | NoEvent

  /** Why a line is skipped: it is blank, it does not parse, or it is neither and holds no event. */
  predicate Skips(line: Line, reason: Reason) {
    match reason
    case Empty => line.BlankLine?
    case NotJson => line.Malformed?
    case NoEvent => !line.BlankLine? && !line.Malformed? && Parse(line).None?
  }

  lemma NoEventExactly(line: Line)
    ensures Skips(line, NoEvent) <==> !line.BlankLine? && !line.Malformed? && forall e :: !Shows(line, e)
  {
    forall e ensures Parse(line) == Some(e) <==> Shows(line, e) {
      ParsedExactly(line, e);
    }
    if Parse(line).Some? {
      assert Shows(line, Parse(line).value);
    }
  }

  /** How many lines are skipped for this reason. */
  function Skipped(lines: seq<Line>, reason: Reason): nat {
    if lines == [] then 0
    else Skipped(lines[..|lines| - 1], reason) + if Skips(lines[|lines| - 1], reason) then 1 else 0
  }

  /** One more line: it is loaded, or counted under the one reason why it is not. */
  function Tallied(d: Diagnostics, seen: set<int>, line: Line): Diagnostics {
    match line
    case BlankLine => d.(blank := d.blank + 1)
    case Malformed => d.(malformed := d.malformed + 1)
    case NotAnObject => d.(invalid := d.invalid + 1)
    case Object(raw) =>
      var event := FromDict(raw);
      if event.None? then d.(invalid := d.invalid + 1)
      else if event.value.id in seen then d.(duplicate := d.duplicate + 1)
      else d.(loaded := d.loaded + 1)
  }

  function Tally(lines: seq<Line>): Diagnostics {
    if lines == [] then Diagnostics(0, 0, 0, 0, 0)
    else
      var front := lines[..|lines| - 1];
      Tallied(Tally(front), Elements(Ids(Loaded(front))), lines[|lines| - 1])
  }

  lemma TalliesOne(d: Diagnostics, seen: set<int>, line: Line)
    ensures Total(Tallied(d, seen, line)) == Total(d) + 1
  {
  }

  lemma {:induction false} TotalIsLength(lines: seq<Line>)
    ensures Total(Tally(lines)) == |lines|
  {
    if lines != [] {
      var front := lines[..|lines| - 1];
      TotalIsLength(front);
      TalliesOne(Tally(front), Elements(Ids(Loaded(front))), lines[|lines| - 1]);
    }
  }

  lemma {:induction false} LoadedAreCounted(lines: seq<Line>)
    ensures Tally(lines).loaded == |Loaded(lines)|
  {
    if lines != [] {
      LoadedAreCounted(lines[..|lines| - 1]);
    }
  }

  lemma {:induction false} ValidAreCounted(lines: seq<Line>)
    ensures Tally(lines).loaded + Tally(lines).duplicate == |ValidIds(lines)|
  {
    if lines != [] {
      ValidAreCounted(lines[..|lines| - 1]);
    }
  }

  /** Each line that is skipped for a reason of its own is counted under it. */
  lemma {:induction false} SkippedExactly(lines: seq<Line>)
    ensures Tally(lines).blank == Skipped(lines, Empty) && Tally(lines).malformed == Skipped(lines, NotJson)
    ensures Tally(lines).invalid == Skipped(lines, NoEvent)
  {
    if lines != [] {
      SkippedExactly(lines[..|lines| - 1]);
    }
  }

  /** Where loading stands after these lines. */
  ghost predicate LoadedSoFar(lines: seq<Line>, events: seq<Event>, seen: set<int>, d: Diagnostics) {
    events == Loaded(lines) && seen == Elements(Ids(events)) && d == Tally(lines)
  }

  method LoadLine(lines: seq<Line>, i: nat, events: seq<Event>, seen: set<int>, d: Diagnostics)
    returns (events': seq<Event>, seen': set<int>, d': Diagnostics)
    requires i < |lines| && LoadedSoFar(lines[..i], events, seen, d)
    ensures LoadedSoFar(lines[..i + 1], events', seen', d')
  {
    assert lines[..i + 1][..i] == lines[..i];
    events', seen', d' := events, seen, d;
    match lines[i]
    case BlankLine => d' := d.(blank := d.blank + 1);
    case Malformed => d' := d.(malformed := d.malformed + 1);
    case NotAnObject => d' := d.(invalid := d.invalid + 1);
    case Object(raw) =>
      var event := FromDict(raw);
      if event.None? {
        d' := d.(invalid := d.invalid + 1);
      } else if event.value.id in seen {
        d' := d.(duplicate := d.duplicate + 1);
      } else {
        assert Ids(events + [event.value]) == Ids(events) + [event.value.id];
        events', seen' := events + [event.value], seen + {event.value.id};
        d' := d.(loaded := d.loaded + 1);
      }
  }

  method LoadNothing(ghost lines: seq<Line>) returns (events: seq<Event>, seen: set<int>, d: Diagnostics)
    ensures LoadedSoFar(lines[..0], events, seen, d)
  {
    return [], {}, Diagnostics(0, 0, 0, 0, 0);
  }

  method LoadEvents(lines: seq<Line>) returns (events: seq<Event>, d: Diagnostics)
    ensures events == Loaded(lines) && d.loaded == |events|
    ensures Total(d) == |lines| && d.loaded + d.duplicate == |ValidIds(lines)|
    ensures d.blank == Skipped(lines, Empty) && d.malformed == Skipped(lines, NotJson)
    ensures d.invalid == Skipped(lines, NoEvent)
  {
    events, d := LoadAll(lines);
    TotalIsLength(lines);
    LoadedAreCounted(lines);
    ValidAreCounted(lines);
    SkippedExactly(lines);
  }

  method LoadAll(lines: seq<Line>) returns (events: seq<Event>, d: Diagnostics)
    ensures events == Loaded(lines) && d == Tally(lines)
  {
    var seen;
    events, seen, d := LoadNothing(lines);
    for i := 0 to |lines|
      invariant LoadedSoFar(lines[..i], events, seen, d)
    {
      events, seen, d := LoadLine(lines, i, events, seen, d);
    }
    assert lines[..|lines|] == lines;
  }

  // -------------------------------------------------------------------- append

  datatype Request = Request(callId: string, kind: string, timestamp: string, data: Data)

  /** The line will be accepted when read back; timestamps come from the clock. */
  ghost predicate Readable(r: Request) {
    !Blank(r.callId) && !Blank(r.kind)
  }

  function NewEvent(lines: seq<Line>, r: Request): Event {
    Event(MaxValidId(lines) + 1, r.callId, r.kind, r.timestamp, r.data)
  }

  function Write(lines: seq<Line>, r: Request): seq<Line> {
    lines + [Object(ToDict(NewEvent(lines, r)))]
  }

  class LogFile {
    var lines: seq<Line>

    constructor (found: seq<Line>)
      ensures lines == found
    {
      lines := found;
    }
  }

  /** One process's view: the shared file and its own window of events. */
  class JsonEventStore {
    const log: LogFile
    const store: EventStore

    ghost predicate Valid()
      reads this, store
    {
      store.Valid()
    }

    constructor (log: LogFile, maxContextEvents: nat)
      ensures Valid() && this.log == log && fresh(store)
      ensures store.history == Loaded(log.lines) && store.maxContextEvents == maxContextEvents
    {
      var loaded, diagnostics := LoadEvents(log.lines);
      LoadedOnce(log.lines);
      ValidIdsPositive(log.lines);
      assert forall i :: 0 <= i < |loaded| ==> Ids(loaded)[i] == loaded[i].id && Ids(loaded)[i] in Ids(loaded);
      this.log := log;
      this.store := new EventStore(maxContextEvents, loaded);
    }

    /** One line under the file lock. */
    method AppendToLog(callId: string, kind: string, timestamp: string, data: Data) returns (event: Event)
      modifies log
      ensures event == NewEvent(old(log.lines), Request(callId, kind, timestamp, data))
      ensures forall id :: id in ValidIds(old(log.lines)) ==> id < event.id
      ensures log.lines == Write(old(log.lines), Request(callId, kind, timestamp, data))
    {
      var maxId := MaxEventIdInJsonl(log.lines);
      event := Event(maxId + 1, callId, kind, timestamp, data);
      log.lines := log.lines + [Object(ToDict(event))];
    }

    /** First the log, then, under another lock, the memory; other threads may run in between. */
    method Append(callId: string, kind: string, timestamp: string, data: Data) returns (event: Event)
      requires Valid()
      modifies log, store
      ensures Valid()
      ensures event == NewEvent(old(log.lines), Request(callId, kind, timestamp, data))
      ensures forall id :: id in ValidIds(old(log.lines)) ==> id < event.id
      ensures log.lines == Write(old(log.lines), Request(callId, kind, timestamp, data))
      ensures store.history == old(store.history) + [event]
    {
      event := AppendToLog(callId, kind, timestamp, data);
      store.RecordEvent(event);
    }
  }

  /** One append: the new id exceeds every valid id, and is itself seen by the next scan exactly if readable. */
  lemma WriteAdvances(lines: seq<Line>, r: Request)
    requires !Blank(r.timestamp)
    ensures forall id :: id in ValidIds(lines) ==> id < NewEvent(lines, r).id
    ensures Readable(r) ==> ValidIds(Write(lines, r)) == ValidIds(lines) + [NewEvent(lines, r).id]
    ensures !Readable(r) ==> ValidIds(Write(lines, r)) == ValidIds(lines)
    ensures MaxValidId(Write(lines, r)) == MaxValidId(lines) + if Readable(r) then 1 else 0
  {
    var e := NewEvent(lines, r);
    MaxOrIsMax(ValidIds(lines), 0);
    AcceptedExactly(e);
    assert Write(lines, r)[..|lines|] == lines;
    assert (ValidIds(lines) + [e.id])[..|ValidIds(lines)|] == ValidIds(lines);
  }

  // ------------------------------------------------- all processes, in any order

  function LinesAfter(lines: seq<Line>, requests: seq<Request>): seq<Line> {
    if requests == [] then lines
    else Write(LinesAfter(lines, requests[..|requests| - 1]), requests[|requests| - 1])
  }

  /** The id given to the k-th append, whichever process made it. */
  function IdGiven(lines: seq<Line>, requests: seq<Request>, k: nat): int
    requires k < |requests|
  {
    NewEvent(LinesAfter(lines, requests[..k]), requests[k]).id
  }

  /** One append raises the largest valid id by one exactly if it is readable. */
  lemma IdsStep(lines: seq<Line>, requests: seq<Request>, k: nat)
    requires k < |requests| && !Blank(requests[k].timestamp)
    ensures MaxValidId(LinesAfter(lines, requests[..k + 1])) ==
            MaxValidId(LinesAfter(lines, requests[..k])) + if Readable(requests[k]) then 1 else 0
  {
    assert requests[..k + 1][..k] == requests[..k];
    WriteAdvances(LinesAfter(lines, requests[..k]), requests[k]);
  }

  lemma {:induction false} IdsNeverFall(lines: seq<Line>, requests: seq<Request>, i: nat, j: nat)
    requires i <= j <= |requests| && forall k :: 0 <= k < |requests| ==> !Blank(requests[k].timestamp)
    ensures LargestAfter(lines, requests, i) <= LargestAfter(lines, requests, j)
    decreases j
  {
    if i < j {
      IdsNeverFall(lines, requests, i, j - 1);
      LargestRises(lines, requests, j - 1);
    }
  }

  function LargestAfter(lines: seq<Line>, requests: seq<Request>, k: nat): int
    requires k <= |requests|
  {
    MaxValidId(LinesAfter(lines, requests[..k]))
  }

  lemma LargestRises(lines: seq<Line>, requests: seq<Request>, k: nat)
    requires k < |requests| && !Blank(requests[k].timestamp)
    ensures LargestAfter(lines, requests, k) <= LargestAfter(lines, requests, k + 1)
  {
    IdsStep(lines, requests, k);
  }

  ghost predicate AllDistinct(lines: seq<Line>, requests: seq<Request>) {
    forall i, j :: 0 <= i < j < |requests| ==> IdGiven(lines, requests, i) != IdGiven(lines, requests, j)
  }

  ghost predicate ReadableButLast(requests: seq<Request>) {
    forall k :: 0 <= k < |requests| - 1 ==> Readable(requests[k])
  }

  lemma ReadableIncrease(lines: seq<Line>, requests: seq<Request>, i: nat, j: nat)
    requires forall k :: 0 <= k < |requests| ==> !Blank(requests[k].timestamp)
    requires ReadableButLast(requests) && i < j < |requests|
    ensures IdGiven(lines, requests, i) < IdGiven(lines, requests, j)
  {
    IdsStep(lines, requests, i);
    IdsNeverFall(lines, requests, i + 1, j);
  }

  /**
   Over any interleaving of any number of processes, all ids given out are
   distinct if and only if every append but the last is readable; they are then
   strictly increasing (ReadableIncrease).
   */
  lemma IdsDistinctExactly(lines: seq<Line>, requests: seq<Request>)
    requires forall k :: 0 <= k < |requests| ==> !Blank(requests[k].timestamp)
    ensures AllDistinct(lines, requests) <==> ReadableButLast(requests)
  {
    if ReadableButLast(requests) {
      forall i, j | 0 <= i < j < |requests| ensures IdGiven(lines, requests, i) != IdGiven(lines, requests, j) {
        ReadableIncrease(lines, requests, i, j);
      }
    } else {
      var k :| 0 <= k < |requests| - 1 && !Readable(requests[k]);
      IdsStep(lines, requests, k);
      assert IdGiven(lines, requests, k) == IdGiven(lines, requests, k + 1);
    }
  }

  // -------------------------------------------------------- every process's memory

  /**
   A process: how many events it retains, all it has loaded and recorded, and what
   its threads have logged but not yet recorded.
   */
  datatype Process = Process(bound: nat, recorded: seq<Event>, outstanding: set<Event>)

  /** The first position still in memory.  Compacting after every record retains the same (WindowStep). */
  function RetainedFrom(me: Process): nat {
    |me.recorded| - |Window(me.recorded, me.bound)|
  }

  /** What the process has in memory. */
  function Retained(me: Process): seq<Event> {
    Window(me.recorded, me.bound)
  }

  datatype System = System(lines: seq<Line>, processes: map<nat, Process>)

  /** A process that starts again is a new process; one that dies takes no more steps. */
  datatype Move =
    | Open(process: nat, bound: nat)
    | Log(process: nat, request: Request)
    | Record(process: nat, event: Event)

  predicate Possible(s: System, m: Move) {
    match m
    case Open(p, _) => p !in s.processes
    case Log(p, _) => p in s.processes
    case Record(p, e) => p in s.processes && e in s.processes[p].outstanding
  }

  function Act(s: System, m: Move): System
    requires Possible(s, m)
  {
    match m
    case Open(p, bound) => s.(processes := s.processes[p := Process(bound, Loaded(s.lines), {})])
    case Log(p, r) =>
      var me := s.processes[p];
      System(Write(s.lines, r), s.processes[p := me.(outstanding := me.outstanding + {NewEvent(s.lines, r)})])
    case Record(p, e) =>
      var me := s.processes[p];
      s.(processes := s.processes[p := me.(recorded := me.recorded + [e], outstanding := me.outstanding - {e})])
  }

  /** A move that is not possible does nothing. */
  function Next(s: System, m: Move): System {
    if Possible(s, m) then Act(s, m) else s
  }

  function After(s: System, moves: seq<Move>): System {
    if moves == [] then s else Next(After(s, moves[..|moves| - 1]), moves[|moves| - 1])
  }

  function Start(lines: seq<Line>): System {
    System(lines, map[])
  }

  /** The requests logged, by whichever process. */
  function Logged(lines: seq<Line>, moves: seq<Move>): seq<Request> {
    if moves == [] then []
    else
      var front, last := moves[..|moves| - 1], moves[|moves| - 1];
      Logged(lines, front) + if last.Log? && Possible(After(Start(lines), front), last) then [last.request] else []
  }

  lemma OneMoreLine(lines: seq<Line>, requests: seq<Request>, r: Request)
    ensures LinesAfter(lines, requests + [r]) == Write(LinesAfter(lines, requests), r)
  {
    assert (requests + [r])[..|requests|] == requests;
  }

  /** The file sees one append after another, so the results about ids hold for every interleaving. */
  lemma {:induction false} LogsAreAppends(lines: seq<Line>, moves: seq<Move>)
    ensures After(Start(lines), moves).lines == LinesAfter(lines, Logged(lines, moves))
  {
    if moves != [] {
      var front := moves[..|moves| - 1];
      LogsAreAppends(lines, front);
      var before, last := Logged(lines, front), moves[|moves| - 1];
      if last.Log? && Possible(After(Start(lines), front), last) {
        OneMoreLine(lines, before, last.request);
      } else {
        assert before + [] == before;
      }
    }
  }

  ghost predicate AllReadable(moves: seq<Move>) {
    forall m :: m in moves && m.Log? ==> Readable(m.request) && !Blank(m.request.timestamp)
  }

  lemma {:induction false} LoadIncreases(lines: seq<Line>)
    requires Increasing(ValidIds(lines))
    ensures Ids(Loaded(lines)) == ValidIds(lines)
  {
    if lines != [] {
      var front, last := lines[..|lines| - 1], Parse(lines[|lines| - 1]);
      if last.Some? {
        assert ValidIds(front) == ValidIds(lines)[..|ValidIds(front)|];
      }
      LoadIncreases(front);
      if last.Some? {
        assert ValidIds(lines)[|ValidIds(front)|] == last.value.id;
        assert forall i :: 0 <= i < |ValidIds(front)| ==> ValidIds(front)[i] == ValidIds(lines)[i];
        assert Ids(Loaded(front) + [last.value]) == Ids(Loaded(front)) + [last.value.id];
      }
    }
  }

  lemma WriteKeepsOrder(lines: seq<Line>, r: Request)
    requires Increasing(ValidIds(lines)) && Readable(r) && !Blank(r.timestamp)
    ensures Increasing(ValidIds(Write(lines, r)))
  {
    WriteAdvances(lines, r);
    var ids := ValidIds(lines);
    assert forall i :: 0 <= i < |ids| ==> ids[i] in ids;
  }

  /** A file in id order stays in id order, whoever appends, and loads in id order. */
  lemma {:induction false} FileStaysInOrder(lines: seq<Line>, moves: seq<Move>)
    requires Increasing(ValidIds(lines)) && AllReadable(moves)
    ensures Increasing(ValidIds(After(Start(lines), moves).lines))
    ensures Increasing(Ids(Loaded(After(Start(lines), moves).lines)))
  {
    if moves != [] {
      var front, last := moves[..|moves| - 1], moves[|moves| - 1];
      assert forall m :: m in front ==> m in moves;
      FileStaysInOrder(lines, front);
      var s := After(Start(lines), front);
      if last.Log? && Possible(s, last) {
        assert last in moves;
        WriteKeepsOrder(s.lines, last.request);
      }
    }
    LoadIncreases(After(Start(lines), moves).lines);
  }

  /** A process knows no id beyond the file's, and its outstanding events have different ids. */
  ghost predicate Known(me: Process, maxId: int) {
    && (forall e :: e in me.recorded ==> e.id <= maxId)
    && (forall e :: e in me.outstanding ==> e.id <= maxId)
    && (forall a, b :: a in me.outstanding && b in me.outstanding && a.id == b.id ==> a == b)
  }

  lemma LoadedKnown(bound: nat, lines: seq<Line>)
    ensures Known(Process(bound, Loaded(lines), {}), MaxValidId(lines))
  {
    LoadedOnce(lines);
    MaxOrIsMax(ValidIds(lines), 0);
    forall e | e in Loaded(lines) ensures e.id <= MaxValidId(lines) {
      var i :| 0 <= i < |Loaded(lines)| && Loaded(lines)[i] == e;
      assert Ids(Loaded(lines))[i] in Ids(Loaded(lines));
    }
  }

  ghost predicate AllKnown(s: System) {
    forall p :: p in s.processes ==> Known(s.processes[p], MaxValidId(s.lines))
  }

  lemma LogKnown(me: Process, maxId: int, e: Event)
    requires Known(me, maxId) && e.id == maxId + 1
    ensures Known(me, e.id) && Known(me.(outstanding := me.outstanding + {e}), e.id)
  {
  }

  lemma RecordKnown(me: Process, maxId: int, e: Event)
    requires Known(me, maxId) && e in me.outstanding
    ensures Known(me.(recorded := me.recorded + [e], outstanding := me.outstanding - {e}), maxId)
  {
  }

  lemma StepKnown(s: System, m: Move)
    requires AllKnown(s) && (m.Log? ==> Readable(m.request) && !Blank(m.request.timestamp))
    ensures AllKnown(Next(s, m))
  {
    if Possible(s, m) {
      match m
      case Open(_, bound) => LoadedKnown(bound, s.lines);
      case Log(_, r) =>
        WriteAdvances(s.lines, r);
        forall p | p in s.processes ensures Known(Next(s, m).processes[p], MaxValidId(Write(s.lines, r))) {
          LogKnown(s.processes[p], MaxValidId(s.lines), NewEvent(s.lines, r));
        }
      case Record(p, e) => RecordKnown(s.processes[p], MaxValidId(s.lines), e);
    }
  }

  lemma {:induction false} AlwaysKnown(lines: seq<Line>, moves: seq<Move>)
    requires AllReadable(moves)
    ensures AllKnown(After(Start(lines), moves))
  {
    if moves != [] {
      var front := moves[..|moves| - 1];
      assert forall m :: m in front ==> m in moves;
      AlwaysKnown(lines, front);
      StepKnown(After(Start(lines), front), moves[|moves| - 1]);
    }
  }

  /** What the process loaded when it opened the log. */
  function OpenedWith(lines: seq<Line>, moves: seq<Move>, p: nat): seq<Event> {
    if moves == [] then []
    else
      var s := After(Start(lines), moves[..|moves| - 1]);
      if moves[|moves| - 1].Open? && moves[|moves| - 1].process == p && p !in s.processes then Loaded(s.lines)
      else OpenedWith(lines, moves[..|moves| - 1], p)
  }

  /** A record at position `from` or later is of the smallest id the process still has to record. */
  ghost predicate Unovertaken(s: System, m: Move, p: nat, from: nat) {
    m.Record? && m.process == p && Possible(s, m) && from <= |s.processes[p].recorded| ==>
      forall x :: x in s.processes[p].outstanding ==> m.event.id <= x.id
  }

  ghost predicate InTurn(lines: seq<Line>, moves: seq<Move>, p: nat, from: nat) {
    forall k :: 0 <= k < |moves| ==> Unovertaken(After(Start(lines), moves[..k]), moves[k], p, from)
  }

  lemma InTurnFront(lines: seq<Line>, moves: seq<Move>, p: nat, from: nat)
    requires InTurn(lines, moves, p, from) && moves != []
    ensures InTurn(lines, moves[..|moves| - 1], p, from)
    ensures Unovertaken(After(Start(lines), moves[..|moves| - 1]), moves[|moves| - 1], p, from)
  {
    var front := moves[..|moves| - 1];
    forall k | 0 <= k < |front| ensures Unovertaken(After(Start(lines), front[..k]), front[k], p, from) {
      assert front[..k] == moves[..k];
    }
  }

  function Suffix<T>(s: seq<T>, from: nat): seq<T> {
    if from <= |s| then s[from..] else []
  }

  /** In id order from a position on, and everything outstanding comes after that. */
  ghost predicate Ordered(me: Process, from: nat) {
    var late := Suffix(me.recorded, from);
    Increasing(Ids(late)) && forall x, y :: x in late && y in me.outstanding ==> x.id < y.id
  }

  lemma RecordOrdered(me: Process, e: Event, maxId: int, from: nat)
    requires Known(me, maxId) && Ordered(me, from) && e in me.outstanding
    requires from <= |me.recorded| ==> forall x :: x in me.outstanding ==> e.id <= x.id
    ensures Ordered(me.(recorded := me.recorded + [e], outstanding := me.outstanding - {e}), from)
  {
    var late := Suffix(me.recorded, from);
    if from <= |me.recorded| {
      assert Suffix(me.recorded + [e], from) == late + [e];
      AppendIncreases(late, e);
    } else {
      assert Suffix(me.recorded + [e], from) == [];
    }
  }

  lemma LogOrdered(me: Process, e: Event, maxId: int, from: nat)
    requires Known(me, maxId) && Ordered(me, from) && maxId < e.id
    ensures Ordered(me.(outstanding := me.outstanding + {e}), from)
  {
    forall x | x in Suffix(me.recorded, from) ensures x.id < e.id {
      assert x in me.recorded;
    }
  }

  lemma OrderedStep(s: System, m: Move, p: nat, from: nat)
    requires p in s.processes && Known(s.processes[p], MaxValidId(s.lines)) && Ordered(s.processes[p], from)
    requires Unovertaken(s, m, p, from)
    ensures Ordered(Next(s, m).processes[p], from)
  {
    if Possible(s, m) && m.process == p {
      match m
      case Record(_, e) => RecordOrdered(s.processes[p], e, MaxValidId(s.lines), from);
      case Log(_, r) => LogOrdered(s.processes[p], NewEvent(s.lines, r), MaxValidId(s.lines), from);
      case Open(_, _) =>
    }
  }

  lemma {:induction false} InTurnIsOrdered(lines: seq<Line>, moves: seq<Move>, p: nat, from: nat)
    requires AllReadable(moves) && InTurn(lines, moves, p, from) && p in After(Start(lines), moves).processes
    requires Increasing(Ids(Suffix(OpenedWith(lines, moves, p), from)))
    ensures Ordered(After(Start(lines), moves).processes[p], from)
  {
    var front := moves[..|moves| - 1];
    assert forall m :: m in front ==> m in moves;
    InTurnFront(lines, moves, p, from);
    var s := After(Start(lines), front);
    if p in s.processes {
      InTurnIsOrdered(lines, front, p, from);
      AlwaysKnown(lines, front);
      OrderedStep(s, moves[|moves| - 1], p, from);
    }
  }

  /** Memory only grows, and what was outstanding is still so or has been recorded since. */
  ghost predicate Grows(earlier: Process, later: Process) {
    && earlier.bound == later.bound && earlier.recorded <= later.recorded
    && forall x :: x in earlier.outstanding ==> x in later.outstanding || x in later.recorded[|earlier.recorded|..]
  }

  lemma GrowsStep(earlier: Process, s: System, m: Move, p: nat)
    requires p in s.processes && Grows(earlier, s.processes[p])
    ensures Grows(earlier, Next(s, m).processes[p])
  {
    var me, later := s.processes[p], Next(s, m).processes[p];
    if m.Record? && m.process == p && Possible(s, m) {
      assert later.recorded[|earlier.recorded|..] == me.recorded[|earlier.recorded|..] + [m.event];
    }
  }

  lemma {:induction false} AlwaysGrows(lines: seq<Line>, moves: seq<Move>, j: nat, p: nat)
    requires j <= |moves| && p in After(Start(lines), moves[..j]).processes
    ensures p in After(Start(lines), moves).processes
    ensures Grows(After(Start(lines), moves[..j]).processes[p], After(Start(lines), moves).processes[p])
  {
    if j == |moves| {
      assert moves[..j] == moves;
    } else {
      var front := moves[..|moves| - 1];
      assert front[..j] == moves[..j];
      AlwaysGrows(lines, front, j, p);
      GrowsStep(After(Start(lines), moves[..j]).processes[p], After(Start(lines), front), moves[|moves| - 1], p);
    }
  }

  lemma {:induction false} OpenedIsFirst(lines: seq<Line>, moves: seq<Move>, p: nat)
    requires p in After(Start(lines), moves).processes
    ensures OpenedWith(lines, moves, p) <= After(Start(lines), moves).processes[p].recorded
  {
    var front := moves[..|moves| - 1];
    if p in After(Start(lines), front).processes {
      OpenedIsFirst(lines, front, p);
    }
  }

  lemma RecordedBehind(early: Process, later: Process, x: Event, from: nat)
    requires Grows(early, later) && later.outstanding == {} && from < |early.recorded|
    requires x in early.outstanding && x.id < early.recorded[|early.recorded| - 1].id
    ensures !Increasing(Ids(Suffix(later.recorded, from)))
  {
    var n, late := |early.recorded|, Suffix(later.recorded, from);
    assert later.recorded[n - 1] == early.recorded[n - 1];
    var i :| 0 <= i < |later.recorded[n..]| && later.recorded[n..][i] == x;
    assert late[n - 1 - from] == later.recorded[n - 1] && late[n + i - from] == x;
    assert Ids(late)[n - 1 - from] > Ids(late)[n + i - from];
  }

  lemma OvertakenAt(s: System, m: Move, p: nat, x: Event, later: Process, from: nat)
    requires m.Record? && m.process == p && Possible(s, m) && from <= |s.processes[p].recorded|
    requires x in s.processes[p].outstanding && x.id < m.event.id
    requires Grows(Next(s, m).processes[p], later) && later.outstanding == {}
    ensures !Increasing(Ids(Suffix(later.recorded, from)))
  {
    RecordedBehind(Next(s, m).processes[p], later, x, from);
  }

  /** A smaller id still outstanding when another is recorded ends up behind it. */
  lemma OvertakenIsUnordered(lines: seq<Line>, moves: seq<Move>, k: nat, p: nat, x: Event, from: nat)
    requires k < |moves| && moves[k].Record? && moves[k].process == p
    requires var s := After(Start(lines), moves[..k]);
             && Possible(s, moves[k]) && from <= |s.processes[p].recorded|
             && x in s.processes[p].outstanding && x.id < moves[k].event.id
    requires p in After(Start(lines), moves).processes && After(Start(lines), moves).processes[p].outstanding == {}
    ensures !Increasing(Ids(Suffix(After(Start(lines), moves).processes[p].recorded, from)))
  {
    var s := After(Start(lines), moves[..k]);
    assert moves[..k + 1][..k] == moves[..k];
    assert After(Start(lines), moves[..k + 1]) == Next(s, moves[k]);
    AlwaysGrows(lines, moves, k + 1, p);
    OvertakenAt(s, moves[k], p, x, After(Start(lines), moves).processes[p], from);
  }

  lemma PrefixOrdered(loaded: seq<Event>, recorded: seq<Event>, from: nat)
    requires loaded <= recorded && Increasing(Ids(Suffix(recorded, from)))
    ensures Increasing(Ids(Suffix(loaded, from)))
  {
    var some, all := Suffix(loaded, from), Suffix(recorded, from);
    forall i, j | 0 <= i < j < |some| ensures Ids(some)[i] < Ids(some)[j] {
      assert some[i] == all[i] && some[j] == all[j];
      assert Ids(all)[i] < Ids(all)[j];
    }
  }

  /** Everything recorded from a position on is in id order exactly if it was loaded and recorded so. */
  lemma RecordedInOrderExactly(lines: seq<Line>, moves: seq<Move>, p: nat, from: nat)
    requires AllReadable(moves)
    requires p in After(Start(lines), moves).processes && After(Start(lines), moves).processes[p].outstanding == {}
    ensures Increasing(Ids(Suffix(After(Start(lines), moves).processes[p].recorded, from))) <==>
            Increasing(Ids(Suffix(OpenedWith(lines, moves, p), from))) && InTurn(lines, moves, p, from)
  {
    OpenedIsFirst(lines, moves, p);
    var recorded, loaded := After(Start(lines), moves).processes[p].recorded, OpenedWith(lines, moves, p);
    if Increasing(Ids(Suffix(recorded, from))) {
      PrefixOrdered(loaded, recorded, from);
    }
    if Increasing(Ids(Suffix(loaded, from))) && InTurn(lines, moves, p, from) {
      InTurnIsOrdered(lines, moves, p, from);
    }
    if !InTurn(lines, moves, p, from) {
      var k :| 0 <= k < |moves| && !Unovertaken(After(Start(lines), moves[..k]), moves[k], p, from);
      var x :| x in After(Start(lines), moves[..k]).processes[p].outstanding && x.id < moves[k].event.id;
      OvertakenIsUnordered(lines, moves, k, p, x, from);
    }
  }

  /**
   Threads of any number of processes may log and record in any order.  Once a
   process has recorded all it logged, its memory is in id order if and only if
   what it retains of the loaded events is, and no append it retains overtook
   another of its own between the log and the memory.
   */
  lemma MemoryOrderedExactly(lines: seq<Line>, moves: seq<Move>, p: nat)
    requires AllReadable(moves)
    requires p in After(Start(lines), moves).processes && After(Start(lines), moves).processes[p].outstanding == {}
    ensures var me := After(Start(lines), moves).processes[p];
            var from := RetainedFrom(me);
            Increasing(Ids(Retained(me))) <==>
            Increasing(Ids(Suffix(OpenedWith(lines, moves, p), from))) && InTurn(lines, moves, p, from)
  {
    var me := After(Start(lines), moves).processes[p];
    assert Retained(me) == Suffix(me.recorded, RetainedFrom(me));
    RecordedInOrderExactly(lines, moves, p, RetainedFrom(me));
  }

  function Alone(lines: seq<Line>, bound: nat, recorded: seq<Event>, outstanding: set<Event>): System {
    System(lines, map[0 := Process(bound, recorded, outstanding)])
  }

  lemma LogsAlone(lines: seq<Line>, bound: nat, recorded: seq<Event>, before: set<Event>, after: set<Event>, r: Request)
    requires after == before + {NewEvent(lines, r)}
    ensures Next(Alone(lines, bound, recorded, before), Log(0, r)) == Alone(Write(lines, r), bound, recorded, after)
  {
    assert Next(Alone(lines, bound, recorded, before), Log(0, r)).processes[0] == Process(bound, recorded, after);
  }

  lemma RecordsAlone(lines: seq<Line>, bound: nat, s: System, m: Move, recorded: seq<Event>, after: set<Event>)
    requires 0 in s.processes && s == Alone(lines, bound, s.processes[0].recorded, s.processes[0].outstanding)
    requires m.Record? && m.process == 0 && Possible(s, m)
    requires recorded == s.processes[0].recorded + [m.event] && after == s.processes[0].outstanding - {m.event}
    ensures Next(s, m) == Alone(lines, bound, recorded, after)
  {
    assert Next(s, m).processes[0] == Process(bound, recorded, after);
  }

  lemma RecordedTwice(lines: seq<Line>, bound: nat, one: Event, two: Event)
    requires one != two
    ensures var s := Alone(lines, bound, [], {one, two});
            && Possible(s, Record(0, two)) && Possible(Next(s, Record(0, two)), Record(0, one))
            && Next(Next(s, Record(0, two)), Record(0, one)) == Alone(lines, bound, [two, one], {})
  {
    RecordsAlone(lines, bound, Alone(lines, bound, [], {one, two}), Record(0, two), [two], {one});
    RecordsAlone(lines, bound, Alone(lines, bound, [two], {one}), Record(0, one), [two, one], {});
  }

  lemma LoggedTwice(r: Request, bound: nat, one: Event, two: Event)
    requires NewEvent([], r) == one && NewEvent(Write([], r), r) == two
    ensures Next(Next(Next(Start([]), Open(0, bound)), Log(0, r)), Log(0, r)) ==
            Alone(Write(Write([], r), r), bound, [], {one, two})
  {
    assert Next(Start([]), Open(0, bound)) == Alone([], bound, [], {});
    LogsAlone([], bound, [], {}, {one}, r);
    LogsAlone(Write([], r), bound, [], {one}, {one, two}, r);
  }

  /**
   It does happen, in one process and on an empty log: one thread logs event 1,
   another logs event 2 and records it, and then the first records.  The memory is
   out of order unless it retains a single event.
   */
  lemma OvertakenAppendReordersMemory(r: Request, bound: nat)
    requires Readable(r) && !Blank(r.timestamp)
    ensures var one := Event(1, r.callId, r.kind, r.timestamp, r.data);
            var two := one.(id := 2);
            var logged := Next(Next(Next(Start([]), Open(0, bound)), Log(0, r)), Log(0, r));
            var recorded := Next(logged, Record(0, two));
            && Possible(logged, Record(0, two)) && Possible(recorded, Record(0, one))
            && Next(recorded, Record(0, one)) == Alone(Write(Write([], r), r), bound, [two, one], {})
            && Window([two, one], bound) == if bound == 1 then [one] else [two, one]
  {
    var one := Event(1, r.callId, r.kind, r.timestamp, r.data);
    WriteAdvances([], r);
    LoggedTwice(r, bound, one, one.(id := 2));
    RecordedTwice(Write(Write([], r), r), bound, one, one.(id := 2));
  }
}
