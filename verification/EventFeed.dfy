/**
 A reader polling the event store while several threads append to it
 (voicebot/events.py append, voicebot/api_events.py websocket_events).

 An append is two steps: taking an id from a shared counter, and recording the
 event under the lock.  Between them other threads may run, so events can be
 recorded out of the order of their ids.
 */
module EventFeed {
  import opened Common
  import opened Events

  datatype Feed = Feed(
    bound: nat,
    nextId: int,
    outstanding: set<int>,   // ids taken but not yet recorded
    recorded: seq<int>,
    cursor: int,
    delivered: seq<int>)

  datatype Move = Allocate | Record(id: int) | Poll(limit: nat)

  function Above(ids: seq<int>, cursor: int): seq<int> {
    if ids == [] then []
    else
      var front, last := Above(ids[..|ids| - 1], cursor), ids[|ids| - 1];
      if last > cursor then front + [last] else front
  }

  /** What one poll returns: the first `limit` retained ids above the cursor. */
  function Batch(f: Feed, limit: nat): seq<int> {
    First(Above(Window(f.recorded, f.bound), f.cursor), limit)
  }

  predicate Possible(f: Feed, m: Move) {
    m.Record? ==> m.id in f.outstanding
  }

  function Next(f: Feed, m: Move): Feed {
    match m
    case Allocate => f.(nextId := f.nextId + 1, outstanding := f.outstanding + {f.nextId})
    case Record(id) => f.(outstanding := f.outstanding - {id}, recorded := f.recorded + [id])
    case Poll(limit) =>
      f.(cursor := MaxOr(Batch(f, limit), f.cursor), delivered := f.delivered + Batch(f, limit))
  }

  function Start(bound: nat): Feed {
    Feed(bound, 1, {}, [], 0, [])
  }

  function After(f: Feed, moves: seq<Move>): Feed {
    if moves == [] then f else Next(After(f, moves[..|moves| - 1]), moves[|moves| - 1])
  }

  ghost predicate Run(bound: nat, moves: seq<Move>) {
    forall k :: 0 <= k < |moves| ==> Possible(After(Start(bound), moves[..k]), moves[k])
  }

  lemma RunPrefix(bound: nat, moves: seq<Move>, j: nat)
    requires Run(bound, moves) && j <= |moves|
    ensures Run(bound, moves[..j])
    ensures j < |moves| ==>
              Possible(After(Start(bound), moves[..j]), moves[j]) &&
              After(Start(bound), moves[..j + 1]) == Next(After(Start(bound), moves[..j]), moves[j])
  {
    forall k | 0 <= k < j ensures Possible(After(Start(bound), moves[..j][..k]), moves[..j][k]) {
      assert moves[..j][..k] == moves[..k];
    }
    if j < |moves| {
      assert moves[..j + 1][..j] == moves[..j];
    }
  }

  // ------------------------------------------------------------ the polling loop

  lemma {:induction false} FilterIsAbove(events: seq<Event>, cursor: int)
    ensures Ids(Filter(events, cursor, None)) == Above(Ids(events), cursor)
  {
    if events != [] {
      var front, last := events[..|events| - 1], events[|events| - 1];
      FilterIsAbove(front, cursor);
      assert Ids(events)[..|events| - 1] == Ids(front);
      var kept := Filter(front, cursor, None);
      assert Ids(kept + [last]) == Ids(kept) + [last.id];
    }
  }

  lemma WindowOfIds(history: seq<Event>, bound: nat)
    ensures Ids(Window(history, bound)) == Window(Ids(history), bound)
  {
  }

  /** One websocket connection: `last_id` follows the largest id sent. */
  class Subscriber {
    var lastId: int

    constructor ()
      ensures lastId == 0
    {
      lastId := 0;
    }

    method PollOnce(store: EventStore, limit: nat) returns (sent: seq<Event>)
      requires store.Valid()
      modifies this
      ensures Ids(sent) == First(Above(Window(Ids(store.history), store.maxContextEvents), old(lastId)), limit)
      ensures lastId == MaxOr(Ids(sent), old(lastId))
    {
      var newEvents := store.ListEvents(lastId, None, limit);
      FilterIsAbove(Window(store.history, store.maxContextEvents), lastId);
      WindowOfIds(store.history, store.maxContextEvents);
      sent := [];
      for i := 0 to |newEvents|
        invariant sent == newEvents[..i]
        invariant lastId == MaxOr(Ids(sent), old(lastId))
      {
        sent := sent + [newEvents[i]];
        lastId := Max(lastId, newEvents[i].id);
        assert Ids(sent)[..|sent| - 1] == Ids(newEvents[..i]);
      }
    }
  }

  // ------------------------------------------------------- true in every interleaving

  lemma {:induction false} AboveIsSelection(ids: seq<int>, cursor: int)
    ensures forall x :: x in Above(ids, cursor) <==> x in ids && x > cursor
    ensures NoDup(ids) ==> NoDup(Above(ids, cursor))
  {
    if ids != [] {
      var front := ids[..|ids| - 1];
      AboveIsSelection(front, cursor);
      assert ids == front + [ids[|ids| - 1]];
      var kept := Above(front, cursor);
      assert NoDup(ids) ==> NoDup(front) && ids[|ids| - 1] !in front;
      assert NoDup(ids) ==> ids[|ids| - 1] !in kept;
    }
  }

  lemma {:induction false} AboveIncreases(ids: seq<int>, cursor: int)
    requires Increasing(ids)
    ensures Increasing(Above(ids, cursor))
  {
    if ids != [] {
      var front := ids[..|ids| - 1];
      AboveIncreases(front, cursor);
      AboveIsSelection(front, cursor);
      var kept := Above(front, cursor);
      forall i | 0 <= i < |kept| ensures kept[i] < ids[|ids| - 1] {
        assert kept[i] in kept;
        assert kept[i] in front;
        var j :| 0 <= j < |front| && front[j] == kept[i];
        assert ids[j] == front[j];
      }
    }
  }

  ghost predicate Tidy(f: Feed) {
    && NoDup(f.recorded)
    && 1 <= f.nextId
    && (forall x :: x in f.recorded ==> 1 <= x < f.nextId && x !in f.outstanding)
    && (forall x :: x in f.outstanding ==> 1 <= x < f.nextId)
  }

  ghost predicate Delivering(f: Feed) {
    && NoDup(f.delivered)
    && (forall x :: x in f.delivered ==> x <= f.cursor && x in f.recorded)
    && (f.cursor == 0 || f.cursor in f.recorded)
  }

  lemma BatchIsSelection(f: Feed, limit: nat)
    requires Tidy(f)
    ensures NoDup(Batch(f, limit))
    ensures forall x :: x in Batch(f, limit) ==> x in Window(f.recorded, f.bound) && x in f.recorded && x > f.cursor
  {
    var w := Window(f.recorded, f.bound);
    var above, batch := Above(w, f.cursor), Batch(f, limit);
    assert NoDup(w) && forall x :: x in w ==> x in f.recorded;
    AboveIsSelection(w, f.cursor);
    assert NoDup(batch) by { assert forall i :: 0 <= i < |batch| ==> batch[i] == above[i]; }
    forall x | x in batch ensures x in w && x in f.recorded && x > f.cursor {
      var i :| 0 <= i < |batch| && batch[i] == x;
      assert above[i] == x && x in above;
    }
  }

  lemma StepTidy(f: Feed, m: Move)
    requires Tidy(f) && Delivering(f) && Possible(f, m)
    ensures Tidy(Next(f, m)) && Delivering(Next(f, m))
  {
    if m.Poll? {
      BatchIsSelection(f, m.limit);
      MaxOrIsMax(Batch(f, m.limit), f.cursor);
      var batch := Batch(f, m.limit);
      assert forall i :: 0 <= i < |batch| ==> batch[i] in batch;
      assert forall i :: 0 <= i < |f.delivered| ==> f.delivered[i] in f.delivered;
    }
  }

  /** However threads interleave, no id is recorded twice and none is delivered twice. */
  lemma {:induction false} NeverTwice(bound: nat, moves: seq<Move>)
    requires Run(bound, moves)
    ensures Tidy(After(Start(bound), moves)) && Delivering(After(Start(bound), moves))
  {
    if moves != [] {
      RunPrefix(bound, moves, |moves| - 1);
      RunPrefix(bound, moves, |moves|);
      assert moves[..|moves|] == moves;
      NeverTwice(bound, moves[..|moves| - 1]);
      StepTidy(After(Start(bound), moves[..|moves| - 1]), moves[|moves| - 1]);
    }
  }

  // ------------------------------------------------- order, exactly when nobody is overtaken

  /** Whoever records holds the smallest id still outstanding. */
  ghost predicate Unovertaken(f: Feed, m: Move) {
    m.Record? ==> forall x :: x in f.outstanding ==> m.id <= x
  }

  ghost predicate InTurn(bound: nat, moves: seq<Move>) {
    forall k :: 0 <= k < |moves| ==> Unovertaken(After(Start(bound), moves[..k]), moves[k])
  }

  lemma InTurnPrefix(bound: nat, moves: seq<Move>, j: nat)
    requires InTurn(bound, moves) && j <= |moves|
    ensures InTurn(bound, moves[..j])
  {
    forall k | 0 <= k < j ensures Unovertaken(After(Start(bound), moves[..j][..k]), moves[..j][k]) {
      assert moves[..j][..k] == moves[..k];
    }
  }

  ghost predicate Ordered(f: Feed) {
    && Increasing(f.recorded)
    && forall x, y :: x in f.recorded && y in f.outstanding ==> x < y
  }

  lemma OrderedStep(f: Feed, m: Move)
    requires Tidy(f) && Possible(f, m) && Unovertaken(f, m) && Ordered(f)
    ensures Ordered(Next(f, m))
  {
    assert forall i :: 0 <= i < |f.recorded| ==> f.recorded[i] in f.recorded;
  }

  lemma {:induction false} InTurnIsOrdered(bound: nat, moves: seq<Move>)
    requires Run(bound, moves) && InTurn(bound, moves)
    ensures Ordered(After(Start(bound), moves))
  {
    if moves != [] {
      var j := |moves| - 1;
      RunPrefix(bound, moves, j);
      InTurnPrefix(bound, moves, j);
      InTurnIsOrdered(bound, moves[..j]);
      NeverTwice(bound, moves[..j]);
      OrderedStep(After(Start(bound), moves[..j]), moves[j]);
    }
  }

  lemma StepAccumulates(f: Feed, m: Move)
    ensures f.recorded <= Next(f, m).recorded
    ensures forall x :: x in f.recorded ==> x in Next(f, m).recorded
    ensures forall x :: x in f.outstanding ==> x in Next(f, m).outstanding || x in Next(f, m).recorded
  {
  }

  /** Records only accumulate, and an id taken is still outstanding until it is recorded. */
  lemma {:induction false} RecordsAccumulate(bound: nat, moves: seq<Move>, j: nat)
    requires j <= |moves|
    ensures After(Start(bound), moves[..j]).recorded <= After(Start(bound), moves).recorded
    ensures forall x :: x in After(Start(bound), moves[..j]).outstanding ==>
              x in After(Start(bound), moves).outstanding || x in After(Start(bound), moves).recorded
  {
    if j == |moves| {
      assert moves[..j] == moves;
    } else {
      var last := |moves| - 1;
      RecordsAccumulate(bound, moves[..last], j);
      assert moves[..last][..j] == moves[..j];
      StepAccumulates(After(Start(bound), moves[..last]), moves[last]);
    }
  }

  lemma RecordedInPlace(bound: nat, moves: seq<Move>, k: nat)
    requires Run(bound, moves) && k < |moves| && moves[k].Record?
    ensures var f, end := After(Start(bound), moves[..k]), After(Start(bound), moves);
            |f.recorded| < |end.recorded| && f.recorded <= end.recorded && end.recorded[|f.recorded|] == moves[k].id
  {
    RunPrefix(bound, moves, k);
    RecordsAccumulate(bound, moves, k);
    RecordsAccumulate(bound, moves, k + 1);
  }

  lemma OutOfOrder(early: seq<int>, late: seq<int>, x: int)
    requires |early| < |late| && early <= late && x < late[|early|]
    requires x in late && x !in early
    ensures !Increasing(late)
  {
    var i :| 0 <= i < |late| && late[i] == x;
  }

  lemma OutstandingIsRecordedLater(bound: nat, moves: seq<Move>, k: nat, x: int)
    requires Run(bound, moves) && After(Start(bound), moves).outstanding == {}
    requires k < |moves| && x in After(Start(bound), moves[..k]).outstanding
    ensures x in After(Start(bound), moves).recorded && x !in After(Start(bound), moves[..k]).recorded
  {
    RunPrefix(bound, moves, k);
    NeverTwice(bound, moves[..k]);
    RecordsAccumulate(bound, moves, k);
  }

  /** A smaller id still outstanding when another is recorded ends up behind it. */
  lemma OvertakenIsUnordered(bound: nat, moves: seq<Move>, k: nat, x: int)
    requires Run(bound, moves) && After(Start(bound), moves).outstanding == {}
    requires k < |moves| && moves[k].Record?
    requires x in After(Start(bound), moves[..k]).outstanding && x < moves[k].id
    ensures !Increasing(After(Start(bound), moves).recorded)
  {
    RecordedInPlace(bound, moves, k);
    OutstandingIsRecordedLater(bound, moves, k, x);
    OutOfOrder(After(Start(bound), moves[..k]).recorded, After(Start(bound), moves).recorded, x);
  }

  /**
   Once every append has completed, the ids are recorded in increasing order if
   and only if no append was overtaken between taking its id and recording it.
   */
  lemma OrderedExactlyInTurn(bound: nat, moves: seq<Move>)
    requires Run(bound, moves) && After(Start(bound), moves).outstanding == {}
    ensures Increasing(After(Start(bound), moves).recorded) <==> InTurn(bound, moves)
  {
    if InTurn(bound, moves) {
      InTurnIsOrdered(bound, moves);
    } else {
      var k :| 0 <= k < |moves| && !Unovertaken(After(Start(bound), moves[..k]), moves[k]);
      var x :| x in After(Start(bound), moves[..k]).outstanding && x < moves[k].id;
      OvertakenIsUnordered(bound, moves, k, x);
    }
  }

  // --------------------------------------------------------------- what readers miss

  /** Some poll found `x` recorded and not yet passed, but already compacted away. */
  ghost predicate Compacted(bound: nat, moves: seq<Move>, x: int) {
    exists k :: 0 <= k < |moves| && CompactedAt(After(Start(bound), moves[..k]), moves[k], x)
  }

  ghost predicate CompactedAt(f: Feed, m: Move, x: int) {
    m.Poll? && x in f.recorded && x !in Window(f.recorded, f.bound) && x > f.cursor
  }

  lemma CompactedExtends(bound: nat, moves: seq<Move>, j: nat, x: int)
    requires j <= |moves| && Compacted(bound, moves[..j], x)
    ensures Compacted(bound, moves, x)
  {
    var k :| 0 <= k < j && CompactedAt(After(Start(bound), moves[..j][..k]), moves[..j][k], x);
    assert moves[..j][..k] == moves[..k];
    assert CompactedAt(After(Start(bound), moves[..k]), moves[k], x);
  }

  /** A poll of ids in order passes nothing it could have delivered. */
  lemma PollPassesNothing(f: Feed, limit: nat, x: int)
    requires Tidy(f) && Ordered(f)
    requires x in Window(f.recorded, f.bound) && f.cursor < x <= Next(f, Poll(limit)).cursor
    ensures x in Batch(f, limit)
  {
    var w := Window(f.recorded, f.bound);
    assert Increasing(w);
    AboveIsSelection(w, f.cursor);
    AboveIncreases(w, f.cursor);
    var above, batch := Above(w, f.cursor), Batch(f, limit);
    MaxOrIsMax(batch, f.cursor);
    var i :| 0 <= i < |above| && above[i] == x;
    assert i < |batch|;
    assert batch[i] == x;
  }

  lemma PollIncreases(f: Feed, limit: nat)
    requires Tidy(f) && Ordered(f) && Delivering(f) && Increasing(f.delivered)
    ensures Increasing(f.delivered + Batch(f, limit))
  {
    var w, batch := Window(f.recorded, f.bound), Batch(f, limit);
    assert Increasing(w);
    AboveIncreases(w, f.cursor);
    assert Increasing(batch);
    BatchIsSelection(f, limit);
    IncreasingConcat(f.delivered, batch, f.cursor);
  }

  lemma IncreasingConcat(a: seq<int>, b: seq<int>, cut: int)
    requires Increasing(a) && Increasing(b)
    requires (forall x :: x in a ==> x <= cut) && (forall x :: x in b ==> x > cut)
    ensures Increasing(a + b)
  {
    assert forall i :: 0 <= i < |a| ==> a[i] in a;
    assert forall i :: 0 <= i < |b| ==> b[i] in b;
  }

  ghost predicate Gone(f: Feed, x: int) {
    x in f.recorded && x !in Window(f.recorded, f.bound) && x !in f.delivered
  }

  lemma StaysGone(f: Feed, m: Move, x: int)
    requires Tidy(f) && Possible(f, m) && Gone(f, x)
    ensures Gone(Next(f, m), x)
  {
    if m.Poll? {
      BatchIsSelection(f, m.limit);
    }
  }

  lemma CompactedIsGone(f: Feed, m: Move, x: int)
    requires Delivering(f) && CompactedAt(f, m, x)
    ensures Gone(f, x)
  {
  }

  lemma GoneNext(bound: nat, moves: seq<Move>, j: nat, x: int)
    requires Run(bound, moves) && j < |moves| && Gone(After(Start(bound), moves[..j]), x)
    ensures Gone(After(Start(bound), moves[..j + 1]), x)
  {
    RunPrefix(bound, moves, j);
    NeverTwice(bound, moves[..j]);
    StaysGone(After(Start(bound), moves[..j]), moves[j], x);
  }

  lemma {:induction false} GoneUntil(bound: nat, moves: seq<Move>, k: nat, j: nat, x: int)
    requires Run(bound, moves) && k <= j <= |moves| && Gone(After(Start(bound), moves[..k]), x)
    ensures Gone(After(Start(bound), moves[..j]), x)
  {
    if k < j {
      GoneUntil(bound, moves, k, j - 1, x);
      GoneNext(bound, moves, j - 1, x);
    }
  }

  lemma GoneSince(bound: nat, moves: seq<Move>, k: nat, x: int)
    requires Run(bound, moves) && k <= |moves| && Gone(After(Start(bound), moves[..k]), x)
    ensures Gone(After(Start(bound), moves), x)
  {
    GoneUntil(bound, moves, k, |moves|, x);
    assert moves[..|moves|] == moves;
  }

  lemma CompactedIsLost(bound: nat, moves: seq<Move>, k: nat, x: int)
    requires Run(bound, moves) && k < |moves|
    requires CompactedAt(After(Start(bound), moves[..k]), moves[k], x)
    ensures Gone(After(Start(bound), moves), x)
  {
    RunPrefix(bound, moves, k);
    NeverTwice(bound, moves[..k]);
    CompactedIsGone(After(Start(bound), moves[..k]), moves[k], x);
    GoneSince(bound, moves, k, x);
  }

  lemma {:induction false} InTurnDelivery(bound: nat, moves: seq<Move>)
    requires Run(bound, moves) && InTurn(bound, moves)
    ensures Increasing(After(Start(bound), moves).delivered)
  {
    if moves != [] {
      var j := |moves| - 1;
      RunPrefix(bound, moves, j);
      InTurnPrefix(bound, moves, j);
      InTurnDelivery(bound, moves[..j]);
      InTurnIsOrdered(bound, moves[..j]);
      NeverTwice(bound, moves[..j]);
      if moves[j].Poll? {
        PollIncreases(After(Start(bound), moves[..j]), moves[j].limit);
      }
    }
  }

  ghost predicate Behind(f: Feed, x: int) {
    x !in f.delivered && x <= f.cursor
  }

  lemma StaysBehind(f: Feed, m: Move, x: int)
    requires Tidy(f) && Behind(f, x)
    ensures Behind(Next(f, m), x)
  {
    if m.Poll? {
      BatchIsSelection(f, m.limit);
      MaxOrIsMax(Batch(f, m.limit), f.cursor);
    }
  }

  lemma NewIsBehind(f: Feed, x: int)
    requires Tidy(f) && Delivering(f) && x in f.outstanding && x <= f.cursor
    ensures Behind(Next(f, Record(x)), x)
  {
  }

  lemma BehindNext(bound: nat, moves: seq<Move>, j: nat, x: int)
    requires Run(bound, moves) && j < |moves| && Behind(After(Start(bound), moves[..j]), x)
    ensures Behind(After(Start(bound), moves[..j + 1]), x)
  {
    RunPrefix(bound, moves, j);
    NeverTwice(bound, moves[..j]);
    StaysBehind(After(Start(bound), moves[..j]), moves[j], x);
  }

  lemma {:induction false} BehindUntil(bound: nat, moves: seq<Move>, k: nat, j: nat, x: int)
    requires Run(bound, moves) && k <= j <= |moves| && Behind(After(Start(bound), moves[..k]), x)
    ensures Behind(After(Start(bound), moves[..j]), x)
  {
    if k < j {
      BehindUntil(bound, moves, k, j - 1, x);
      BehindNext(bound, moves, j - 1, x);
    }
  }

  lemma BehindSince(bound: nat, moves: seq<Move>, k: nat, x: int)
    requires Run(bound, moves) && k <= |moves| && Behind(After(Start(bound), moves[..k]), x)
    ensures Behind(After(Start(bound), moves), x)
  {
    BehindUntil(bound, moves, k, |moves|, x);
    assert moves[..|moves|] == moves;
  }

  /** An id recorded at or below the cursor is never delivered, retained or not. */
  lemma LateIsLost(bound: nat, moves: seq<Move>, k: nat, x: int)
    requires Run(bound, moves) && k < |moves| && moves[k] == Record(x)
    requires x <= After(Start(bound), moves[..k]).cursor
    ensures Behind(After(Start(bound), moves), x)
  {
    RunPrefix(bound, moves, k);
    NeverTwice(bound, moves[..k]);
    NewIsBehind(After(Start(bound), moves[..k]), x);
    BehindSince(bound, moves, k + 1, x);
  }

  /** Some append recorded `x` when the cursor was already there or beyond. */
  ghost predicate Late(bound: nat, moves: seq<Move>, x: int) {
    exists k :: 0 <= k < |moves| && LateAt(After(Start(bound), moves[..k]), moves[k], x)
  }

  ghost predicate LateAt(f: Feed, m: Move, x: int) {
    m == Record(x) && x <= f.cursor
  }

  /** Some poll retained `x`, not yet passed, left it out of its batch, and passed it all the same. */
  ghost predicate Cut(bound: nat, moves: seq<Move>, x: int) {
    exists k :: 0 <= k < |moves| && CutAt(After(Start(bound), moves[..k]), moves[k], x)
  }

  ghost predicate CutAt(f: Feed, m: Move, x: int) {
    m.Poll? && x in Window(f.recorded, f.bound) && f.cursor < x <= Next(f, m).cursor && x !in Batch(f, m.limit)
  }

  /** The three ways to miss an id that the cursor has passed. */
  ghost predicate Missed(bound: nat, moves: seq<Move>, x: int) {
    Compacted(bound, moves, x) || Late(bound, moves, x) || Cut(bound, moves, x)
  }

  lemma MissedExtends(bound: nat, moves: seq<Move>, j: nat, x: int)
    requires j <= |moves| && Missed(bound, moves[..j], x)
    ensures Missed(bound, moves, x)
  {
    if Compacted(bound, moves[..j], x) {
      CompactedExtends(bound, moves, j, x);
    } else if Late(bound, moves[..j], x) {
      var k :| 0 <= k < j && LateAt(After(Start(bound), moves[..j][..k]), moves[..j][k], x);
      assert moves[..j][..k] == moves[..k];
      assert LateAt(After(Start(bound), moves[..k]), moves[k], x);
    } else {
      var k :| 0 <= k < j && CutAt(After(Start(bound), moves[..j][..k]), moves[..j][k], x);
      assert moves[..j][..k] == moves[..k];
      assert CutAt(After(Start(bound), moves[..k]), moves[k], x);
    }
  }

  /** In every interleaving, an id the cursor has passed was delivered or missed in one of the three ways. */
  lemma {:induction false} DeliveredOrMissed(bound: nat, moves: seq<Move>, x: int)
    requires Run(bound, moves)
    requires x in After(Start(bound), moves).recorded && x <= After(Start(bound), moves).cursor
    ensures x in After(Start(bound), moves).delivered || Missed(bound, moves, x)
  {
    var j := |moves| - 1;
    RunPrefix(bound, moves, j);
    var f := After(Start(bound), moves[..j]);
    if x in f.recorded && x <= f.cursor {
      DeliveredOrMissed(bound, moves[..j], x);
      if Missed(bound, moves[..j], x) {
        MissedExtends(bound, moves, j, x);
      }
    } else if moves[j].Poll? {
      assert CompactedAt(f, moves[j], x) || CutAt(f, moves[j], x) || x in Batch(f, moves[j].limit);
    } else {
      assert LateAt(f, moves[j], x);
    }
  }

  lemma CutIsBehind(f: Feed, m: Move, x: int)
    requires Delivering(f) && CutAt(f, m, x)
    ensures Behind(Next(f, m), x)
  {
  }

  lemma CutIsLost(bound: nat, moves: seq<Move>, k: nat, x: int)
    requires Run(bound, moves) && k < |moves| && CutAt(After(Start(bound), moves[..k]), moves[k], x)
    ensures Behind(After(Start(bound), moves), x)
  {
    RunPrefix(bound, moves, k);
    NeverTwice(bound, moves[..k]);
    CutIsBehind(After(Start(bound), moves[..k]), moves[k], x);
    BehindSince(bound, moves, k + 1, x);
  }

  /**
   What a reader gets, in every interleaving: an id that is recorded and that its
   cursor has passed was delivered if and only if it was neither compacted before
   a poll reached it, nor recorded behind the cursor, nor left out of the batch
   of a poll that moved the cursor past it.
   */
  lemma DeliveredExactly(bound: nat, moves: seq<Move>, x: int)
    requires Run(bound, moves)
    requires x in After(Start(bound), moves).recorded && x <= After(Start(bound), moves).cursor
    ensures x in After(Start(bound), moves).delivered <==>
            !Compacted(bound, moves, x) && !Late(bound, moves, x) && !Cut(bound, moves, x)
  {
    DeliveredOrMissed(bound, moves, x);
    if Compacted(bound, moves, x) {
      var k :| 0 <= k < |moves| && CompactedAt(After(Start(bound), moves[..k]), moves[k], x);
      CompactedIsLost(bound, moves, k, x);
    }
    if Late(bound, moves, x) {
      var k :| 0 <= k < |moves| && LateAt(After(Start(bound), moves[..k]), moves[k], x);
      LateIsLost(bound, moves, k, x);
    }
    if Cut(bound, moves, x) {
      var k :| 0 <= k < |moves| && CutAt(After(Start(bound), moves[..k]), moves[k], x);
      CutIsLost(bound, moves, k, x);
    }
  }

  lemma {:induction false} BoundStays(f: Feed, moves: seq<Move>)
    ensures After(f, moves).bound == f.bound
  {
    if moves != [] {
      BoundStays(f, moves[..|moves| - 1]);
    }
  }

  /** A poll that asks for at least as many events as the window holds leaves none out. */
  lemma WholeWindowIsNeverCut(bound: nat, moves: seq<Move>, x: int)
    requires 1 <= bound && forall k :: 0 <= k < |moves| && moves[k].Poll? ==> bound <= moves[k].limit
    ensures !Cut(bound, moves, x)
  {
    forall k | 0 <= k < |moves| ensures !CutAt(After(Start(bound), moves[..k]), moves[k], x) {
      var f := After(Start(bound), moves[..k]);
      BoundStays(Start(bound), moves[..k]);
      AboveIsSelection(Window(f.recorded, f.bound), f.cursor);
      AboveIsShorter(Window(f.recorded, f.bound), f.cursor);
    }
  }

  lemma {:induction false} AboveIsShorter(ids: seq<int>, cursor: int)
    ensures |Above(ids, cursor)| <= |ids|
  {
    if ids != [] {
      AboveIsShorter(ids[..|ids| - 1], cursor);
    }
  }

  lemma InTurnIsPunctual(bound: nat, moves: seq<Move>, x: int)
    requires Run(bound, moves) && InTurn(bound, moves)
    ensures !Late(bound, moves, x) && !Cut(bound, moves, x)
  {
    forall k | 0 <= k < |moves|
      ensures !LateAt(After(Start(bound), moves[..k]), moves[k], x)
      ensures !CutAt(After(Start(bound), moves[..k]), moves[k], x)
    {
      RunPrefix(bound, moves, k);
      InTurnPrefix(bound, moves, k);
      InTurnIsOrdered(bound, moves[..k]);
      NeverTwice(bound, moves[..k]);
      var f := After(Start(bound), moves[..k]);
      if CutAt(f, moves[k], x) {
        PollPassesNothing(f, moves[k].limit, x);
      }
    }
  }

  /**
   With appends in turn a reader gets a strictly increasing sequence, and misses
   exactly the ids compacted before a poll reached them.
   */
  lemma ReaderMissesOnlyCompacted(bound: nat, moves: seq<Move>, x: int)
    requires Run(bound, moves) && InTurn(bound, moves)
    requires x in After(Start(bound), moves).recorded && x <= After(Start(bound), moves).cursor
    ensures Increasing(After(Start(bound), moves).delivered)
    ensures x in After(Start(bound), moves).delivered <==> !Compacted(bound, moves, x)
  {
    InTurnDelivery(bound, moves);
    InTurnIsPunctual(bound, moves, x);
    DeliveredExactly(bound, moves, x);
  }

  lemma PollOfOne(x: int)
    requires x > 0
    ensures Next(Feed(80, 3, {1}, [x], 0, []), Poll(100)) == Feed(80, 3, {1}, [x], x, [x])
  {
    assert [x][..0] == [] && Above([x], 0) == [x] && MaxOr([x], 0) == x;
  }

  lemma PollOfNone()
    ensures Next(Feed(80, 3, {}, [2, 1], 2, [2]), Poll(100)) == Feed(80, 3, {}, [2, 1], 2, [2])
  {
    assert [2, 1][..1] == [2] && Above([2], 2) == [] && Above([2, 1], 2) == [];
  }

  /**
   Overtaking does happen: two threads take ids 1 and 2, the second records
   first, and a reader that polls in between never sees event 1, which is
   retained throughout.
   */
  lemma OvertakenEventIsMissed()
    ensures var taken := Next(Next(Start(80), Allocate), Allocate);
            var polled := Next(Next(taken, Record(2)), Poll(100));
            var end := Next(Next(polled, Record(1)), Poll(100));
            && Possible(taken, Record(2)) && Possible(polled, Record(1))
            && end.outstanding == {} && Window(end.recorded, 80) == [2, 1] && end.delivered == [2]
  {
    var taken := Next(Next(Start(80), Allocate), Allocate);
    assert taken == Feed(80, 3, {1, 2}, [], 0, []);
    assert Next(taken, Record(2)) == Feed(80, 3, {1}, [2], 0, []);
    PollOfOne(2);
    PollOfNone();
  }

  /**
   A short batch does miss a retained event without any append being late: two
   threads take ids 1 and 2, the second records first, and a reader that polls
   one event at a time, after both, passes event 1.
   */
  lemma ShortBatchMissesEvent()
    ensures var taken := Next(Next(Start(200), Allocate), Allocate);
            var both := Next(Next(taken, Record(2)), Record(1));
            var end := Next(Next(both, Poll(1)), Poll(1));
            && Possible(taken, Record(2)) && Possible(Next(taken, Record(2)), Record(1))
            && CutAt(both, Poll(1), 1)
            && Window(end.recorded, 200) == [2, 1] && end.cursor == 2 && end.delivered == [2]
  {
    var taken := Next(Next(Start(200), Allocate), Allocate);
    assert taken == Feed(200, 3, {1, 2}, [], 0, []);
    var both := Next(Next(taken, Record(2)), Record(1));
    assert both == Feed(200, 3, {}, [2, 1], 0, []);
    assert [2, 1][..1] == [2] && Above([2], 0) == [2] && Above([2, 1], 0) == [2, 1];
    assert Batch(both, 1) == [2] && [2][..0] == [] && MaxOr([2], 0) == 2;
    assert Above([2], 2) == [] && Above([2, 1], 2) == [];
  }
}
