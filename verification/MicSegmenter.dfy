/**
 Microphone segmentation with pre-roll, barge-in and echo suppression
 (listen_forever and TokenState in listen_transcribe_repeat.py).
 */
module MicSegmenter {
  import opened Common

  /** One block: its level, whether speech is being played, and whether its echo may linger. */
  datatype Tick = Tick(level: real, playing: bool, inTail: bool)

  datatype Params = Params(
    start: real, stop: real, barge: real, ratio: real, margin: real,
    silenceBlocks: nat, maxBlocks: nat, preRoll: nat, blockSeconds: real, minSeconds: real)

  /** Block counts are derived with a minimum of one. */
  predicate Configured(p: Params) {
    1 <= p.silenceBlocks && 1 <= p.maxBlocks
  }

  function RealMax(a: real, b: real): real {
    if a < b then b else a
  }

  function RealMin(a: real, b: real): real {
    if b < a then b else a
  }

  /** The level that interrupts playback, given the measured echo. */
  function BargeThreshold(p: Params, floor: real): real {
    RealMax(p.start, RealMin(p.barge, RealMax(floor * p.ratio, floor + p.margin)))
  }

  /** Loud enough to interrupt: at the start level, and at the barge-in level or above the echo by ratio and margin. */
  lemma InterruptsExactly(p: Params, floor: real, level: real)
    ensures BargeThreshold(p, floor) <= level <==>
            p.start <= level && (p.barge <= level || (floor * p.ratio <= level && floor + p.margin <= level))
  {
  }

  /** Played speech heard back: it is measured and otherwise ignored. */
  predicate IsEcho(p: Params, t: Tick, floor: real) {
    t.playing && t.level < BargeThreshold(p, floor)
  }

  predicate InEchoTail(p: Params, t: Tick) {
    t.inTail && t.level < p.barge
  }

  /** Does a recording start with this block? */
  predicate Starts(p: Params, t: Tick, floor: real) {
    && t.level >= (if t.playing then BargeThreshold(p, floor) else p.start)
    && !InEchoTail(p, t)
  }

  /**
   A recording starts exactly with a block at the start level that also interrupts,
   if speech is being played, and reaches the barge-in level, if its echo may linger.
   */
  lemma StartsExactly(p: Params, t: Tick, floor: real)
    ensures Starts(p, t, floor) <==>
            && p.start <= t.level
            && (t.playing ==> p.barge <= t.level || (floor * p.ratio <= t.level && floor + p.margin <= t.level))
            && (t.inTail ==> p.barge <= t.level)
  {
    InterruptsExactly(p, floor, t.level);
  }

  // ------------------------------------------------------- the declarative side

  /** While waiting: the measured echo, and all blocks that were neither echo nor tail. */
  datatype Waiting = Waiting(floor: real, heard: seq<nat>)

  function WaitedUntil(p: Params, ticks: seq<Tick>, after: nat, floor: real, n: nat): Waiting
    requires n <= |ticks|
  {
    if n <= after then Waiting(floor, [])
    else
      var w, t := WaitedUntil(p, ticks, after, floor, n - 1), ticks[n - 1];
      if IsEcho(p, t, w.floor) then Waiting(0.9 * w.floor + 0.1 * t.level, w.heard)
      else if InEchoTail(p, t) then w
      else Waiting(w.floor, w.heard + [n - 1])
  }

  /** Below the level at which it would interrupt the speech being played. */
  predicate Drowned(p: Params, t: Tick, floor: real) {
    && t.playing
    && (t.level < p.start || (t.level < p.barge && (t.level < floor * p.ratio || t.level < floor + p.margin)))
  }

  /** While waiting, only drowned blocks move the echo measured, each by a tenth of the way to its level. */
  lemma EchoMovesExactly(p: Params, ticks: seq<Tick>, after: nat, floor: real, n: nat)
    requires after <= n < |ticks|
    ensures var w, next := WaitedUntil(p, ticks, after, floor, n), WaitedUntil(p, ticks, after, floor, n + 1);
            && WaitedUntil(p, ticks, after, floor, after).floor == floor
            && (Drowned(p, ticks[n], w.floor) ==> next.floor - w.floor == (ticks[n].level - w.floor) / 10.0)
            && (!Drowned(p, ticks[n], w.floor) ==> next.floor == w.floor)
  {
    InterruptsExactly(p, WaitedUntil(p, ticks, after, floor, n).floor, ticks[n].level);
  }

  /** Drowned, or below the barge-in level while an echo may linger. */
  predicate Skipped(p: Params, t: Tick, floor: real) {
    Drowned(p, t, floor) || (t.inTail && t.level < p.barge)
  }

  predicate SkippedAt(p: Params, ticks: seq<Tick>, after: nat, floor: real, i: nat)
    requires i < |ticks|
  {
    Skipped(p, ticks[i], WaitedUntil(p, ticks, after, floor, i).floor)
  }

  lemma HeardStep(p: Params, ticks: seq<Tick>, after: nat, floor: real, n: nat)
    requires after <= n < |ticks|
    ensures WaitedUntil(p, ticks, after, floor, n + 1).heard ==
            WaitedUntil(p, ticks, after, floor, n).heard + if SkippedAt(p, ticks, after, floor, n) then [] else [n]
  {
    InterruptsExactly(p, WaitedUntil(p, ticks, after, floor, n).floor, ticks[n].level);
  }

  /** Heard while waiting are exactly the blocks that are not skipped. */
  lemma {:induction false} HeardExactly(p: Params, ticks: seq<Tick>, after: nat, floor: real, n: nat, i: nat)
    requires i < n <= |ticks|
    ensures i in WaitedUntil(p, ticks, after, floor, n).heard <==> after <= i && !SkippedAt(p, ticks, after, floor, i)
  {
    HeardInOrder(p, ticks, after, floor, n);
    if n > after {
      HeardStep(p, ticks, after, floor, n - 1);
      HeardInOrder(p, ticks, after, floor, n - 1);
      if i < n - 1 {
        HeardExactly(p, ticks, after, floor, n - 1, i);
      }
    }
  }

  function LastFew(s: seq<nat>, k: nat): seq<nat> {
    if |s| > k then s[|s| - k..] else s
  }

  /** The pre-roll of a recording that starts at `n`: the last blocks heard before it. */
  function PreRollAt(p: Params, ticks: seq<Tick>, after: nat, floor: real, n: nat): seq<nat>
    requires n <= |ticks|
  {
    LastFew(WaitedUntil(p, ticks, after, floor, n).heard, p.preRoll)
  }

  predicate StartsAt(p: Params, ticks: seq<Tick>, after: nat, floor: real, n: nat)
    requires n < |ticks|
  {
    Starts(p, ticks[n], WaitedUntil(p, ticks, after, floor, n).floor)
  }

  /** An utterance: its token, the pre-roll blocks kept for it, and the blocks recorded. */
  datatype Utterance = Utterance(token: nat, pre: seq<nat>, from: nat, to: nat)

  function Range(from: nat, to: nat): seq<int>
    requires from <= to
  {
    seq(to - from, i => from + i)
  }

  function Frames(u: Utterance): seq<int>
    requires u.from <= u.to
  {
    u.pre + Range(u.from, u.to)
  }

  function QuietBlocks(p: Params, ticks: seq<Tick>, from: nat, to: nat): nat
    requires to <= |ticks|
  {
    if to <= from + 1 || ticks[to - 1].level >= p.stop then 0 else QuietBlocks(p, ticks, from, to - 1) + 1
  }

  predicate Ends(p: Params, ticks: seq<Tick>, from: nat, to: nat)
    requires to <= |ticks|
  {
    from + 2 <= to && (QuietBlocks(p, ticks, from, to) >= p.silenceBlocks || to - from >= p.maxBlocks)
  }

  /** The blocks from `q` to `to` are quiet, and not the first one; the one before `q` is loud or the first. */
  predicate QuietRun(p: Params, ticks: seq<Tick>, from: nat, q: nat, to: nat) {
    && from < q <= to <= |ticks| && (forall i :: q <= i < to ==> ticks[i].level < p.stop)
    && (q == from + 1 || ticks[q - 1].level >= p.stop)
  }

  lemma {:induction false} QuietIsLength(p: Params, ticks: seq<Tick>, from: nat, to: nat) returns (q: nat)
    requires from < to <= |ticks|
    ensures QuietRun(p, ticks, from, q, to) && QuietBlocks(p, ticks, from, to) == to - q
  {
    if to == from + 1 || ticks[to - 1].level >= p.stop {
      q := to;
    } else {
      q := QuietIsLength(p, ticks, from, to - 1);
    }
  }

  /**
   A recording may end once it has two blocks, and exactly if enough of them at its
   end are quiet or it has as many as are allowed.
   */
  lemma EndsExactly(p: Params, ticks: seq<Tick>, from: nat, to: nat) returns (q: nat)
    requires from < to <= |ticks|
    ensures QuietRun(p, ticks, from, q, to)
    ensures Ends(p, ticks, from, to) <==>
            from + 2 <= to && (to - q >= p.silenceBlocks || to - from >= p.maxBlocks)
  {
    q := QuietIsLength(p, ticks, from, to);
  }

  /** The pre-roll is the last `preRoll` blocks heard, or all of them if there are fewer. */
  lemma PreRollExactly(p: Params, ticks: seq<Tick>, after: nat, floor: real, n: nat)
    requires n <= |ticks|
    ensures var heard, pre := WaitedUntil(p, ticks, after, floor, n).heard, PreRollAt(p, ticks, after, floor, n);
            |pre| == Min(p.preRoll, |heard|) && pre == heard[|heard| - |pre|..]
  {
  }

  /** No recording starts between `after` and `n`. */
  ghost predicate Silent(p: Params, ticks: seq<Tick>, after: nat, floor: real, n: nat) {
    n <= |ticks| && forall i :: after <= i < n ==> !StartsAt(p, ticks, after, floor, i)
  }

  /** A recording that began at `from`, the first place it could, and has not ended by `n`. */
  ghost predicate Open(p: Params, ticks: seq<Tick>, after: nat, floor: real, from: nat, n: nat) {
    && after <= from < n <= |ticks|
    && StartsAt(p, ticks, after, floor, from) && Silent(p, ticks, after, floor, from)
    && forall e :: from <= e <= n ==> !Ends(p, ticks, from, e)
  }

  /** The next utterance: it starts at the first place it can, with its pre-roll, and ends at the first place it can. */
  ghost predicate NextUtterance(p: Params, ticks: seq<Tick>, after: nat, floor: real, u: Utterance) {
    && after <= u.from < u.to <= |ticks|
    && StartsAt(p, ticks, after, floor, u.from) && Silent(p, ticks, after, floor, u.from)
    && u.pre == PreRollAt(p, ticks, after, floor, u.from)
    && Ends(p, ticks, u.from, u.to)
    && forall e :: u.from <= e < u.to ==> !Ends(p, ticks, u.from, e)
  }

  function After(us: seq<Utterance>, k: nat): nat
    requires k <= |us|
  {
    if k == 0 then 0 else us[k - 1].to
  }

  /** The echo measured by the end of the first `k` utterances; it is not measured while recording. */
  function Floor(p: Params, ticks: seq<Tick>, us: seq<Utterance>, k: nat): real
    requires k <= |us|
  {
    if k == 0 then p.start
    else if us[k - 1].from <= |ticks| then
      WaitedUntil(p, ticks, After(us, k - 1), Floor(p, ticks, us, k - 1), us[k - 1].from).floor
    else 0.0
  }

  ghost predicate Link(p: Params, ticks: seq<Tick>, token: nat, us: seq<Utterance>, k: nat)
    requires k < |us|
  {
    NextUtterance(p, ticks, After(us, k), Floor(p, ticks, us, k), us[k]) && us[k].token == token + k + 1
  }

  ghost predicate Chain(p: Params, ticks: seq<Tick>, token: nat, us: seq<Utterance>) {
    forall k :: 0 <= k < |us| ==> Link(p, ticks, token, us, k)
  }

  /** Each utterance is the next one after the previous, and after the last there is none. */
  ghost predicate Greedy(p: Params, ticks: seq<Tick>, token: nat, us: seq<Utterance>) {
    && Chain(p, ticks, token, us)
    && forall u :: !NextUtterance(p, ticks, After(us, |us|), Floor(p, ticks, us, |us|), u)
  }

  // ---------------------------------------------------------- it is determined

  lemma NextUnique(p: Params, ticks: seq<Tick>, after: nat, floor: real, a: Utterance, b: Utterance)
    requires NextUtterance(p, ticks, after, floor, a) && NextUtterance(p, ticks, after, floor, b)
    requires a.token == b.token
    ensures a == b
  {
    assert a.from == b.from;
    assert a.to == b.to;
  }

  lemma {:induction false} FloorOfPrefix(p: Params, ticks: seq<Tick>, a: seq<Utterance>, b: seq<Utterance>, k: nat)
    requires k <= |a| && k <= |b| && a[..k] == b[..k]
    ensures After(a, k) == After(b, k) && Floor(p, ticks, a, k) == Floor(p, ticks, b, k)
  {
    if k > 0 {
      assert a[k - 1] == a[..k][k - 1] == b[..k][k - 1] == b[k - 1];
      assert a[..k - 1] == a[..k][..k - 1] == b[..k][..k - 1] == b[..k - 1];
      FloorOfPrefix(p, ticks, a, b, k - 1);
    }
  }

  lemma {:induction false} ChainsAgree(
    p: Params, ticks: seq<Tick>, token: nat, a: seq<Utterance>, b: seq<Utterance>, k: nat)
    requires Chain(p, ticks, token, a) && Chain(p, ticks, token, b) && k <= |a| && k <= |b|
    ensures a[..k] == b[..k]
  {
    if k > 0 {
      ChainsAgree(p, ticks, token, a, b, k - 1);
      FloorOfPrefix(p, ticks, a, b, k - 1);
      assert Link(p, ticks, token, a, k - 1) && Link(p, ticks, token, b, k - 1);
      NextUnique(p, ticks, After(a, k - 1), Floor(p, ticks, a, k - 1), a[k - 1], b[k - 1]);
      assert a[..k] == a[..k - 1] + [a[k - 1]];
      assert b[..k] == b[..k - 1] + [b[k - 1]];
    }
  }

  lemma LinkIsNext(p: Params, ticks: seq<Tick>, token: nat, us: seq<Utterance>, k: nat)
    requires Chain(p, ticks, token, us) && k < |us|
    ensures NextUtterance(p, ticks, After(us, k), Floor(p, ticks, us, k), us[k])
  {
    assert Link(p, ticks, token, us, k);
  }

  lemma NotShorter(p: Params, ticks: seq<Tick>, token: nat, a: seq<Utterance>, b: seq<Utterance>)
    requires Greedy(p, ticks, token, a) && Chain(p, ticks, token, b)
    ensures |a| >= |b|
  {
    if |a| < |b| {
      ChainsAgree(p, ticks, token, a, b, |a|);
      FloorOfPrefix(p, ticks, a, b, |a|);
      LinkIsNext(p, ticks, token, b, |a|);
    }
  }

  /** The blocks heard have only one greedy segmentation, pre-roll, echo and tokens included. */
  lemma GreedyUnique(p: Params, ticks: seq<Tick>, token: nat, a: seq<Utterance>, b: seq<Utterance>)
    requires Greedy(p, ticks, token, a) && Greedy(p, ticks, token, b)
    ensures a == b
  {
    NotShorter(p, ticks, token, a, b);
    NotShorter(p, ticks, token, b, a);
    ChainsAgree(p, ticks, token, a, b, |a|);
  }

  // -------------------------------------------------------------- consequences

  lemma {:induction false} HeardInOrder(p: Params, ticks: seq<Tick>, after: nat, floor: real, n: nat)
    requires n <= |ticks|
    ensures var heard := WaitedUntil(p, ticks, after, floor, n).heard;
            Increasing(heard) && forall i :: 0 <= i < |heard| ==> after <= heard[i] < n
  {
    if n > after {
      HeardInOrder(p, ticks, after, floor, n - 1);
    }
  }

  /**
   No utterance exceeds the pre-roll plus max(2, maxBlocks) blocks; its blocks are
   in order, and the first one recorded reaches the start level.
   */
  lemma UtteranceIsBounded(p: Params, ticks: seq<Tick>, after: nat, floor: real, u: Utterance)
    requires Configured(p) && NextUtterance(p, ticks, after, floor, u)
    ensures |Frames(u)| <= p.preRoll + Max(2, p.maxBlocks)
    ensures Increasing(Frames(u)) && ticks[u.from].level >= p.start
    ensures forall i :: 0 <= i < |Frames(u)| ==> after <= Frames(u)[i] < u.to
  {
    HeardInOrder(p, ticks, after, floor, u.from);
    assert !Ends(p, ticks, u.from, u.to - 1);
  }

  /** All blocks of all utterances, in the order they are queued. */
  ghost function AllFrames(us: seq<Utterance>): seq<int>
    requires forall i :: 0 <= i < |us| ==> us[i].from <= us[i].to
  {
    if us == [] then [] else AllFrames(us[..|us| - 1]) + Frames(us[|us| - 1])
  }

  lemma FrontIsChain(p: Params, ticks: seq<Tick>, token: nat, us: seq<Utterance>)
    requires Chain(p, ticks, token, us) && us != []
    ensures Chain(p, ticks, token, us[..|us| - 1])
  {
    var front := us[..|us| - 1];
    forall k | 0 <= k < |front| ensures Link(p, ticks, token, front, k) {
      assert Link(p, ticks, token, us, k);
      assert front[..k] == us[..k];
      FloorOfPrefix(p, ticks, front, us, k);
    }
  }

  /** No block is ever used twice: over all utterances the blocks strictly increase. */
  lemma {:induction false} BlocksUsedOnce(p: Params, ticks: seq<Tick>, token: nat, us: seq<Utterance>)
    requires Configured(p) && Chain(p, ticks, token, us)
    ensures forall i :: 0 <= i < |us| ==> us[i].from <= us[i].to
    ensures Increasing(AllFrames(us))
    ensures forall i :: 0 <= i < |AllFrames(us)| ==> AllFrames(us)[i] < After(us, |us|)
  {
    forall i | 0 <= i < |us| ensures us[i].from <= us[i].to {
      assert Link(p, ticks, token, us, i);
    }
    if us != [] {
      var front, last := us[..|us| - 1], us[|us| - 1];
      FrontIsChain(p, ticks, token, us);
      BlocksUsedOnce(p, ticks, token, front);
      assert Link(p, ticks, token, us, |front|);
      assert After(front, |front|) == After(us, |front|);
      UtteranceIsBounded(p, ticks, After(us, |front|), Floor(p, ticks, us, |front|), last);
    }
  }

  /** Tokens strictly increase. */
  lemma TokensIncrease(p: Params, ticks: seq<Tick>, token: nat, us: seq<Utterance>, j: nat, k: nat)
    requires Chain(p, ticks, token, us) && j < k < |us|
    ensures token < us[j].token < us[k].token
  {
    assert Link(p, ticks, token, us, j) && Link(p, ticks, token, us, k);
  }

  lemma ChainGrows(p: Params, ticks: seq<Tick>, token: nat, us: seq<Utterance>, u: Utterance)
    requires Chain(p, ticks, token, us) && u.token == token + |us| + 1
    requires NextUtterance(p, ticks, After(us, |us|), Floor(p, ticks, us, |us|), u)
    ensures Chain(p, ticks, token, us + [u])
    ensures Floor(p, ticks, us + [u], |us| + 1) ==
            WaitedUntil(p, ticks, After(us, |us|), Floor(p, ticks, us, |us|), u.from).floor
  {
    forall k | 0 <= k <= |us|
      ensures After(us + [u], k) == After(us, k) && Floor(p, ticks, us + [u], k) == Floor(p, ticks, us, k)
      ensures Link(p, ticks, token, us + [u], k)
    {
      assert (us + [u])[..k] == us[..k];
      FloorOfPrefix(p, ticks, us + [u], us, k);
      assert k < |us| ==> Link(p, ticks, token, us, k);
    }
  }

  // ------------------------------------------------------------------- the loop

  class TokenState {
    var value: nat

    constructor ()
      ensures value == 0
    {
      value := 0;
    }

    method Bump() returns (token: nat)
      modifies this
      ensures token == value == old(value) + 1
    {
      value := value + 1;
      token := value;
    }
  }

  /** The listener's local variables. */
  datatype Local = Local(
    isRecording: bool, silenceBlocks: nat, token: nat, collected: seq<nat>, preRoll: seq<nat>, blocksSeen: nat,
    echoFloor: real)

  /** Idle or recording since `from`, `after` the last utterance, when the echo was `floor`. */
  ghost predicate Fits(p: Params, ticks: seq<Tick>, after: nat, floor: real, l: Local, from: nat, n: nat) {
    && after <= n <= |ticks|
    && if l.isRecording then
         && Open(p, ticks, after, floor, from, n)
         && l.collected == PreRollAt(p, ticks, after, floor, from) + Range(from, n) && l.preRoll == []
         && l.silenceBlocks == QuietBlocks(p, ticks, from, n) && l.blocksSeen == n - from
         && l.echoFloor == WaitedUntil(p, ticks, after, floor, from).floor
       else
         && Silent(p, ticks, after, floor, n)
         && l.collected == [] && l.preRoll == PreRollAt(p, ticks, after, floor, n)
         && l.echoFloor == WaitedUntil(p, ticks, after, floor, n).floor
  }

  /** One more block heard: keeping the last few of them needs only the last few so far. */
  lemma PreRollGrows(heard: seq<nat>, n: nat, k: nat)
    ensures LastFew(heard + [n], k) == if k > 0 then LastFew(LastFew(heard, k) + [n], k) else []
  {
  }

  lemma StillSilent(p: Params, ticks: seq<Tick>, after: nat, floor: real, n: nat)
    requires n < |ticks| && Silent(p, ticks, after, floor, n) && !StartsAt(p, ticks, after, floor, n)
    ensures Silent(p, ticks, after, floor, n + 1)
  {
  }

  /** Outside a recording: echo is tracked, the tail is skipped, speech starts, or pre-roll collects. */
  method Wait(p: Params, l: Local, t: Tick, n: nat, tokens: TokenState,
              ghost ticks: seq<Tick>, ghost after: nat, ghost floor: real)
    returns (l': Local)
    requires Configured(p) && n < |ticks| && t == ticks[n] && !l.isRecording && Fits(p, ticks, after, floor, l, 0, n)
    modifies tokens
    ensures tokens.value == old(tokens.value) + if l'.isRecording then 1 else 0
    ensures l'.isRecording ==> l'.token == tokens.value
    ensures Fits(p, ticks, after, floor, l', n, n + 1)
  {
    ghost var heard := WaitedUntil(p, ticks, after, floor, n).heard;
    assert !StartsAt(p, ticks, after, floor, n) ==> Silent(p, ticks, after, floor, n + 1) by {
      if !StartsAt(p, ticks, after, floor, n) { StillSilent(p, ticks, after, floor, n); }
    }
    var barge := BargeThreshold(p, l.echoFloor);
    if t.playing && t.level < barge {
      return l.(echoFloor := 0.9 * l.echoFloor + 0.1 * t.level);
    }
    if t.inTail && t.level < p.barge {
      return l;
    }
    var threshold := if t.playing then barge else p.start;
    if t.level >= threshold {
      var token := tokens.Bump();
      assert Range(n, n + 1) == [n];
      return l.(isRecording := true, silenceBlocks := 0, token := token, collected := l.preRoll + [n],
                preRoll := [], blocksSeen := 1);
    }
    PreRollGrows(heard, n, p.preRoll);
    if p.preRoll > 0 {
      var grown := l.preRoll + [n];
      return l.(preRoll := if |grown| > p.preRoll then grown[|grown| - p.preRoll..] else grown);
    }
    return l;
  }

  /** Inside a recording: the block is kept, and the recording may end with it. */
  method Record(p: Params, l: Local, t: Tick, n: nat,
                ghost ticks: seq<Tick>, ghost after: nat, ghost floor: real, ghost from: nat)
    returns (l': Local, finished: Option<seq<nat>>)
    requires n < |ticks| && t == ticks[n] && l.isRecording && Fits(p, ticks, after, floor, l, from, n)
    ensures l'.token == l.token && l'.echoFloor == l.echoFloor
    ensures finished.None? ==> l'.isRecording && Fits(p, ticks, after, floor, l', from, n + 1)
    ensures finished.Some? ==>
              var u := Utterance(l.token, PreRollAt(p, ticks, after, floor, from), from, n + 1);
              && l' == l.(isRecording := false, silenceBlocks := 0, collected := [], blocksSeen := 0)
              && NextUtterance(p, ticks, after, floor, u) && finished.value == Frames(u)
  {
    var collected := l.collected + [n];
    assert collected == PreRollAt(p, ticks, after, floor, from) + Range(from, n + 1);
    var blocksSeen := l.blocksSeen + 1;
    var silenceBlocks := if t.level < p.stop then l.silenceBlocks + 1 else 0;
    if silenceBlocks < p.silenceBlocks && blocksSeen < p.maxBlocks {
      return l.(collected := collected, blocksSeen := blocksSeen, silenceBlocks := silenceBlocks), None;
    }
    return l.(isRecording := false, silenceBlocks := 0, collected := [], blocksSeen := 0), Some(collected);
  }

  /** What goes to transcription: the token and the blocks, unless they are too short. */
  ghost function Queued(p: Params, us: seq<Utterance>): seq<(nat, seq<nat>)> {
    if us == [] then []
    else
      var u := us[|us| - 1];
      Queued(p, us[..|us| - 1]) +
        if u.from <= u.to && Seconds(p, Frames(u)) >= p.minSeconds then [(u.token, Frames(u))] else []
  }

  function Seconds(p: Params, blocks: seq<nat>): real {
    |blocks| as real * p.blockSeconds
  }

  /** Pre-roll and recording together last at least as long as asked for. */
  predicate LastsLongEnough(p: Params, u: Utterance) {
    (|u.pre| + u.to - u.from) as real * p.blockSeconds >= p.minSeconds
  }

  lemma LongEnoughIsKept(p: Params, u: Utterance)
    requires u.from <= u.to
    ensures Seconds(p, Frames(u)) >= p.minSeconds <==> LastsLongEnough(p, u)
  {
    assert |Frames(u)| == |u.pre| + u.to - u.from;
  }

  /** Exactly the recordings that last long enough are queued, in order and each with its token. */
  lemma {:induction false} QueuedExactly(p: Params, us: seq<Utterance>) returns (queued: seq<int>)
    requires forall k :: 0 <= k < |us| ==> us[k].from <= us[k].to
    ensures Increasing(queued) && |queued| == |Queued(p, us)|
    ensures forall k :: k in queued <==> 0 <= k < |us| && LastsLongEnough(p, us[k])
    ensures forall i :: 0 <= i < |queued| ==>
              0 <= queued[i] < |us| && Queued(p, us)[i] == (us[queued[i]].token, Frames(us[queued[i]]))
  {
    queued := [];
    if us != [] {
      var k := |us| - 1;
      var front := us[..k];
      assert forall i :: 0 <= i < k ==> front[i] == us[i];
      queued := QueuedExactly(p, front);
      LongEnoughIsKept(p, us[k]);
      if LastsLongEnough(p, us[k]) {
        assert forall i :: i in queued ==> i < k;
        queued := queued + [k];
      }
    }
  }

  /** Before block `n`: the recordings so far and what was queued of them. */
  ghost predicate Progress(p: Params, ticks: seq<Tick>, token: nat, us: seq<Utterance>, queued: seq<(nat, seq<nat>)>,
                           l: Local, from: nat, n: nat) {
    && Chain(p, ticks, token, us) && queued == Queued(p, us)
    && Fits(p, ticks, After(us, |us|), Floor(p, ticks, us, |us|), l, from, n)
    && (l.isRecording ==> l.token == token + |us| + 1)
  }

  lemma ListeningStarts(p: Params, ticks: seq<Tick>, token: nat)
    ensures Progress(p, ticks, token, [], [], Local(false, 0, 0, [], [], 0, p.start), 0, 0)
  {
  }

  lemma OpenIsLast(p: Params, ticks: seq<Tick>, after: nat, floor: real, from: nat, u: Utterance)
    requires Open(p, ticks, after, floor, from, |ticks|)
    ensures !NextUtterance(p, ticks, after, floor, u)
  {
  }

  lemma ProgressIsGreedy(p: Params, ticks: seq<Tick>, token: nat, us: seq<Utterance>, queued: seq<(nat, seq<nat>)>,
                         l: Local, from: nat)
    requires Progress(p, ticks, token, us, queued, l, from, |ticks|)
    ensures Greedy(p, ticks, token, us) && queued == Queued(p, us)
  {
    var after, floor := After(us, |us|), Floor(p, ticks, us, |us|);
    forall u ensures !NextUtterance(p, ticks, after, floor, u) {
      if l.isRecording {
        OpenIsLast(p, ticks, after, floor, from, u);
      }
    }
  }

  /** One block while recording. */
  method RecordBlock(p: Params, l: Local, t: Tick, n: nat, queued: seq<(nat, seq<nat>)>,
                     ghost ticks: seq<Tick>, ghost token: nat, ghost us: seq<Utterance>, ghost from: nat)
    returns (l': Local, queued': seq<(nat, seq<nat>)>, ghost us': seq<Utterance>)
    requires n < |ticks| && t == ticks[n] && l.isRecording && Progress(p, ticks, token, us, queued, l, from, n)
    ensures Progress(p, ticks, token, us', queued', l', from, n + 1)
    ensures |us'| == |us| + if l'.isRecording then 0 else 1
  {
    ghost var after, floor := After(us, |us|), Floor(p, ticks, us, |us|);
    us', queued' := us, queued;
    var finished;
    l', finished := Record(p, l, t, n, ticks, after, floor, from);
    if finished.Some? {
      ghost var u := Utterance(l.token, PreRollAt(p, ticks, after, floor, from), from, n + 1);
      ChainGrows(p, ticks, token, us, u);
      us' := us + [u];
      assert us'[..|us|] == us;
      if Seconds(p, finished.value) >= p.minSeconds {
        queued' := queued + [(l.token, finished.value)];
      }
    }
  }

  /**
   What is queued is exactly the long enough utterances of the one greedy
   segmentation of the blocks heard, each with its token and its blocks.
   */
  method ListenForever(p: Params, ticks: seq<Tick>, tokens: TokenState)
    returns (queued: seq<(nat, seq<nat>)>, ghost us: seq<Utterance>)
    requires Configured(p)
    modifies tokens
    ensures Greedy(p, ticks, old(tokens.value), us)
    ensures queued == Queued(p, us)
    ensures old(tokens.value) + |us| <= tokens.value <= old(tokens.value) + |us| + 1
  {
    ghost var token, from: nat := tokens.value, 0;
    queued, us := [], [];
    var l := Local(false, 0, 0, [], [], 0, p.start);
    ListeningStarts(p, ticks, token);
    for n := 0 to |ticks|
      invariant Progress(p, ticks, token, us, queued, l, from, n)
      invariant tokens.value == token + |us| + if l.isRecording then 1 else 0
    {
      if !l.isRecording {
        from := n;
        l := Wait(p, l, ticks[n], n, tokens, ticks, After(us, |us|), Floor(p, ticks, us, |us|));
      } else {
        l, queued, us := RecordBlock(p, l, ticks[n], n, queued, ticks, token, us, from);
      }
    }
    ProgressIsGreedy(p, ticks, token, us, queued, l, from);
  }
}
