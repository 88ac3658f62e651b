/**
 Voice-activity segmentation of a call (AudioSocketHandler.handle in
 sip_audiosocket_bridge.py).

 The loop is proved against a declarative greedy segmentation of the whole block
 list, which is shown to be unique.
 */
module BridgeSegmenter {
  import opened Common

  /** One audio block: its RMS level, its length in milliseconds and in samples. */
  datatype Block = Block(level: real, ms: nat, samples: nat)

  /** What arrives on the socket; DTMF, ids and unknown messages count as Other. */
  datatype Input = Audio(block: Block) | Other | Terminate

  datatype Params = Params(start: real, stop: real, silenceMs: int, capMs: int, minSeconds: real)

  const CALL_SAMPLE_RATE := 8000

  /** An utterance as a half-open range of block positions. */
  datatype Span = Span(from: nat, to: nat)

  /** The audio blocks up to the end of the call. */
  function Blocks(inputs: seq<Input>): seq<Block> {
    if inputs == [] || inputs[0].Terminate? then []
    else (if inputs[0].Audio? then [inputs[0].block] else []) + Blocks(inputs[1..])
  }

  lemma BlocksStep(inputs: seq<Input>, i: nat)
    requires i < |inputs| && !inputs[i].Terminate?
    ensures Blocks(inputs[i..]) ==
            (if inputs[i].Audio? then [inputs[i].block] else []) + Blocks(inputs[i + 1..])
    ensures inputs[i].Audio? ==> Blocks(inputs[i..])[1..] == Blocks(inputs[i + 1..])
  {
    assert inputs[i..][1..] == inputs[i + 1..];
  }

  /** After `i` inputs and `n` audio blocks, what is still to be read. */
  ghost predicate Reading(inputs: seq<Input>, i: nat, blocks: seq<Block>, n: nat) {
    i <= |inputs| && n <= |blocks| && Blocks(inputs[i..]) == blocks[n..]
  }

  lemma ReadingStarts(inputs: seq<Input>)
    ensures Reading(inputs, 0, Blocks(inputs), 0)
  {
    assert inputs[0..] == inputs;
  }

  lemma ReadAudio(inputs: seq<Input>, i: nat, blocks: seq<Block>, n: nat)
    requires Reading(inputs, i, blocks, n) && i < |inputs| && inputs[i].Audio?
    ensures n < |blocks| && blocks[n] == inputs[i].block && Reading(inputs, i + 1, blocks, n + 1)
  {
    BlocksStep(inputs, i);
    assert blocks[n..][0] == inputs[i].block;
    assert blocks[n..][1..] == blocks[n + 1..];
  }

  lemma ReadOther(inputs: seq<Input>, i: nat, blocks: seq<Block>, n: nat)
    requires Reading(inputs, i, blocks, n) && i < |inputs| && inputs[i].Other?
    ensures Reading(inputs, i + 1, blocks, n)
  {
    BlocksStep(inputs, i);
  }

  lemma ReadingEnds(inputs: seq<Input>, i: nat, blocks: seq<Block>, n: nat)
    requires Reading(inputs, i, blocks, n) && (i == |inputs| || inputs[i].Terminate?)
    ensures n == |blocks|
  {
    assert Blocks(inputs[i..]) == [];
  }

  // ------------------------------------------------------- the declarative side

  /** The quiet run that ends just before `to`; the first block never counts as quiet. */
  function QuietMs(p: Params, blocks: seq<Block>, from: nat, to: nat): nat
    requires to <= |blocks|
  {
    if to <= from + 1 || blocks[to - 1].level >= p.stop then 0
    else QuietMs(p, blocks, from, to - 1) + blocks[to - 1].ms
  }

  function TotalMs(blocks: seq<Block>, from: nat, to: nat): nat
    requires to <= |blocks|
  {
    if to <= from then 0 else TotalMs(blocks, from, to - 1) + blocks[to - 1].ms
  }

  function TotalSamples(blocks: seq<Block>, from: nat, to: nat): nat
    requires to <= |blocks|
  {
    if to <= from then 0 else TotalSamples(blocks, from, to - 1) + blocks[to - 1].samples
  }

  /** An utterance may end only after a second block. */
  predicate Ends(p: Params, blocks: seq<Block>, from: nat, to: nat)
    requires to <= |blocks|
  {
    from + 2 <= to && (QuietMs(p, blocks, from, to) >= p.silenceMs || TotalMs(blocks, from, to) >= p.capMs)
  }

  function Milliseconds(blocks: seq<Block>): seq<nat> {
    seq(|blocks|, i requires 0 <= i < |blocks| => blocks[i].ms)
  }

  function Samples(blocks: seq<Block>): seq<nat> {
    seq(|blocks|, i requires 0 <= i < |blocks| => blocks[i].samples)
  }

  /** The blocks from `q` to `to` are quiet, and not the first one; the one before `q` is loud or the first. */
  predicate QuietRun(p: Params, blocks: seq<Block>, from: nat, q: nat, to: nat) {
    && from < q <= to <= |blocks| && (forall i :: q <= i < to ==> blocks[i].level < p.stop)
    && (q == from + 1 || blocks[q - 1].level >= p.stop)
  }

  lemma {:induction false} QuietIsSum(p: Params, blocks: seq<Block>, from: nat, to: nat) returns (q: nat)
    requires from < to <= |blocks|
    ensures QuietRun(p, blocks, from, q, to) && QuietMs(p, blocks, from, to) == Sum(Milliseconds(blocks[q..to]))
  {
    if to == from + 1 || blocks[to - 1].level >= p.stop {
      q := to;
      assert Milliseconds(blocks[to..to]) == [];
    } else {
      q := QuietIsSum(p, blocks, from, to - 1);
      assert Milliseconds(blocks[q..to]) == Milliseconds(blocks[q..to - 1]) + [blocks[to - 1].ms];
      SumGrows(Milliseconds(blocks[q..to - 1]), blocks[to - 1].ms);
    }
  }

  lemma {:induction false} TotalIsSum(blocks: seq<Block>, from: nat, to: nat)
    requires from <= to <= |blocks|
    ensures TotalMs(blocks, from, to) == Sum(Milliseconds(blocks[from..to]))
    ensures TotalSamples(blocks, from, to) == Sum(Samples(blocks[from..to]))
  {
    if from == to {
      assert Milliseconds(blocks[from..to]) == [] && Samples(blocks[from..to]) == [];
    } else {
      TotalIsSum(blocks, from, to - 1);
      assert Milliseconds(blocks[from..to]) == Milliseconds(blocks[from..to - 1]) + [blocks[to - 1].ms];
      assert Samples(blocks[from..to]) == Samples(blocks[from..to - 1]) + [blocks[to - 1].samples];
      SumGrows(Milliseconds(blocks[from..to - 1]), blocks[to - 1].ms);
      SumGrows(Samples(blocks[from..to - 1]), blocks[to - 1].samples);
    }
  }

  /**
   An utterance may end once it has two blocks, and exactly if the quiet blocks at
   its end add up to the silence asked for, or all its blocks to the longest length.
   */
  lemma EndsExactly(p: Params, blocks: seq<Block>, from: nat, to: nat) returns (q: nat)
    requires from < to <= |blocks|
    ensures QuietRun(p, blocks, from, q, to)
    ensures Ends(p, blocks, from, to) <==>
            from + 2 <= to &&
            (Sum(Milliseconds(blocks[q..to])) >= p.silenceMs || Sum(Milliseconds(blocks[from..to])) >= p.capMs)
  {
    q := QuietIsSum(p, blocks, from, to);
    TotalIsSum(blocks, from, to);
  }

  /** The next utterance after `after`: starts at the first loud block, ends at the first possible place. */
  ghost predicate NextSpan(p: Params, blocks: seq<Block>, after: nat, s: Span) {
    && after <= s.from < s.to <= |blocks|
    && blocks[s.from].level >= p.start
    && (forall i :: after <= i < s.from ==> blocks[i].level < p.start)
    && Ends(p, blocks, s.from, s.to)
    && (forall e :: s.from <= e < s.to ==> !Ends(p, blocks, s.from, e))
  }

  function After(spans: seq<Span>, k: nat): nat
    requires k <= |spans|
  {
    if k == 0 then 0 else spans[k - 1].to
  }

  /** Each span is the next one after the previous, and after the last there is none. */
  ghost predicate Greedy(p: Params, blocks: seq<Block>, spans: seq<Span>) {
    && Chain(p, blocks, spans)
    && (forall s :: !NextSpan(p, blocks, After(spans, |spans|), s))
  }

  lemma NextSpanUnique(p: Params, blocks: seq<Block>, after: nat, a: Span, b: Span)
    requires NextSpan(p, blocks, after, a) && NextSpan(p, blocks, after, b)
    ensures a == b
  {
  }

  ghost predicate Link(p: Params, blocks: seq<Block>, spans: seq<Span>, k: nat)
    requires k < |spans|
  {
    NextSpan(p, blocks, After(spans, k), spans[k])
  }

  ghost predicate Chain(p: Params, blocks: seq<Block>, spans: seq<Span>) {
    forall k :: 0 <= k < |spans| ==> Link(p, blocks, spans, k)
  }

  lemma {:induction false} ChainsAgree(p: Params, blocks: seq<Block>, a: seq<Span>, b: seq<Span>, k: nat)
    requires Chain(p, blocks, a) && Chain(p, blocks, b) && k <= |a| && k <= |b|
    ensures a[..k] == b[..k] && After(a, k) == After(b, k)
  {
    if k > 0 {
      ChainsAgree(p, blocks, a, b, k - 1);
      assert Link(p, blocks, a, k - 1) && Link(p, blocks, b, k - 1);
      NextSpanUnique(p, blocks, After(a, k - 1), a[k - 1], b[k - 1]);
      assert a[..k] == a[..k - 1] + [a[k - 1]];
      assert b[..k] == b[..k - 1] + [b[k - 1]];
    }
  }

  lemma LinkIsNext(p: Params, blocks: seq<Block>, spans: seq<Span>, k: nat)
    requires Chain(p, blocks, spans) && k < |spans|
    ensures NextSpan(p, blocks, After(spans, k), spans[k])
  {
    assert Link(p, blocks, spans, k);
  }

  lemma NotShorter(p: Params, blocks: seq<Block>, a: seq<Span>, b: seq<Span>)
    requires Greedy(p, blocks, a) && Chain(p, blocks, b)
    ensures |a| >= |b|
  {
    if |a| < |b| {
      ChainsAgree(p, blocks, a, b, |a|);
      LinkIsNext(p, blocks, b, |a|);
    }
  }

  /** A block list has only one greedy segmentation. */
  lemma GreedyUnique(p: Params, blocks: seq<Block>, a: seq<Span>, b: seq<Span>)
    requires Greedy(p, blocks, a) && Greedy(p, blocks, b)
    ensures a == b
  {
    NotShorter(p, blocks, a, b);
    NotShorter(p, blocks, b, a);
    ChainsAgree(p, blocks, a, b, |a|);
  }

  /** Utterances are disjoint and in order, and none is longer than it has to be. */
  lemma {:induction false} SpansInOrder(p: Params, blocks: seq<Block>, spans: seq<Span>, j: nat, k: nat)
    requires Chain(p, blocks, spans) && j < k < |spans|
    ensures spans[j].to <= spans[k].from
    decreases k - j
  {
    assert Link(p, blocks, spans, k);
    if j + 1 < k {
      SpansInOrder(p, blocks, spans, j, k - 1);
      assert Link(p, blocks, spans, k - 1);
    }
  }

  // ------------------------------------------------------------------- the loop

  predicate LongEnough(p: Params, blocks: seq<Block>, s: Span)
    requires s.from <= s.to <= |blocks|
  {
    TotalSamples(blocks, s.from, s.to) as real / CALL_SAMPLE_RATE as real >= p.minSeconds
  }

  ghost predicate InRange(blocks: seq<Block>, spans: seq<Span>) {
    forall k :: 0 <= k < |spans| ==> spans[k].from <= spans[k].to <= |blocks|
  }

  /** The audio of the utterances that are not too short to transcribe. */
  ghost function Audible(p: Params, blocks: seq<Block>, spans: seq<Span>): seq<seq<Block>>
    requires InRange(blocks, spans)
  {
    if spans == [] then []
    else
      var s := spans[|spans| - 1];
      Audible(p, blocks, spans[..|spans| - 1]) + if LongEnough(p, blocks, s) then [blocks[s.from..s.to]] else []
  }

  /** Exactly the utterances of at least so many seconds, at 8000 samples each, are heard, in their order. */
  lemma {:induction false} AudibleExactly(p: Params, blocks: seq<Block>, spans: seq<Span>)
    returns (heard: seq<int>)
    requires InRange(blocks, spans)
    ensures Increasing(heard) && |heard| == |Audible(p, blocks, spans)|
    ensures forall k :: k in heard <==>
              0 <= k < |spans| &&
              Sum(Samples(blocks[spans[k].from..spans[k].to])) as real >= p.minSeconds * 8000.0
    ensures forall i :: 0 <= i < |heard| ==>
              0 <= heard[i] < |spans| &&
              Audible(p, blocks, spans)[i] == blocks[spans[heard[i]].from..spans[heard[i]].to]
  {
    heard := [];
    if spans != [] {
      var k := |spans| - 1;
      var front := spans[..k];
      heard := AudibleExactly(p, blocks, front);
      assert forall i :: 0 <= i < k ==> front[i] == spans[i];
      TotalIsSum(blocks, spans[k].from, spans[k].to);
      if LongEnough(p, blocks, spans[k]) {
        assert forall i :: i in heard ==> i < k;
        heard := heard + [k];
      }
    }
  }

  ghost predicate Silent(p: Params, blocks: seq<Block>, from: nat, to: nat) {
    to <= |blocks| && forall i :: from <= i < to ==> blocks[i].level < p.start
  }

  /** A recording that began at `from` and has not ended by `n`. */
  ghost predicate Open(p: Params, blocks: seq<Block>, after: nat, from: nat, n: nat) {
    && after <= from < n <= |blocks|
    && blocks[from].level >= p.start && Silent(p, blocks, after, from)
    && forall e :: from <= e <= n ==> !Ends(p, blocks, from, e)
  }

  lemma SilentIsLast(p: Params, blocks: seq<Block>, after: nat, s: Span)
    requires Silent(p, blocks, after, |blocks|)
    ensures !NextSpan(p, blocks, after, s)
  {
  }

  lemma OpenIsLast(p: Params, blocks: seq<Block>, after: nat, from: nat, s: Span)
    requires Open(p, blocks, after, from, |blocks|)
    ensures !NextSpan(p, blocks, after, s)
  {
  }

  lemma OpenCloses(p: Params, blocks: seq<Block>, after: nat, from: nat, n: nat)
    requires n < |blocks| && Open(p, blocks, after, from, n) && Ends(p, blocks, from, n + 1)
    ensures NextSpan(p, blocks, after, Span(from, n + 1))
  {
  }

  lemma ChainGrows(p: Params, blocks: seq<Block>, spans: seq<Span>, s: Span)
    requires Chain(p, blocks, spans) && NextSpan(p, blocks, After(spans, |spans|), s)
    ensures Chain(p, blocks, spans + [s])
  {
    forall k | 0 <= k <= |spans| ensures Link(p, blocks, spans + [s], k) {
      assert After(spans + [s], k) == After(spans, k);
      assert k < |spans| ==> Link(p, blocks, spans, k);
    }
  }

  /** The handler's local variables. */
  datatype Local = Local(isRecording: bool, collected: seq<Block>, silenceMs: int, speechMs: int)

  const IDLE := Local(false, [], 0, 0)

  ghost predicate Fits(p: Params, blocks: seq<Block>, after: nat, l: Local, from: nat, n: nat) {
    && after <= n <= |blocks|
    && if l.isRecording then
         && Open(p, blocks, after, from, n)
         && l.collected == blocks[from..n]
         && l.silenceMs == QuietMs(p, blocks, from, n) && l.speechMs == TotalMs(blocks, from, n)
       else
         l == IDLE && Silent(p, blocks, after, n)
  }

  /** One audio block: the new locals, and the finished recording if it ends one. */
  method Hear(p: Params, l: Local, block: Block,
              ghost blocks: seq<Block>, ghost after: nat, ghost from: nat, ghost n: nat)
    returns (l': Local, finished: Option<seq<Block>>, ghost from': nat)
    requires n < |blocks| && block == blocks[n] && Fits(p, blocks, after, l, from, n)
    ensures finished.None? ==> Fits(p, blocks, after, l', from', n + 1)
    ensures finished.Some? ==>
              && l' == IDLE && NextSpan(p, blocks, after, Span(from, n + 1))
              && finished.value == blocks[from..n + 1]
  {
    from', finished := from, None;
    if !l.isRecording {
      if block.level < p.start {
        return l, None, from;
      }
      assert TotalMs(blocks, n, n) == 0;
      return Local(true, [block], 0, block.ms), None, n;
    }
    var collected := l.collected + [block];
    assert collected == blocks[from..n + 1];
    var speechMs := l.speechMs + block.ms;
    var silenceMs := if block.level < p.stop then l.silenceMs + block.ms else 0;
    if silenceMs < p.silenceMs && speechMs < p.capMs {
      return Local(true, collected, silenceMs, speechMs), None, from;
    }
    OpenCloses(p, blocks, after, from, n);
    return IDLE, Some(collected), from;
  }

  /** After `n` blocks: the spans so far, their audio, and the locals. */
  ghost predicate Progress(
    p: Params, blocks: seq<Block>, n: nat, spans: seq<Span>, utterances: seq<seq<Block>>, l: Local, from: nat)
  {
    && Chain(p, blocks, spans) && InRange(blocks, spans)
    && Fits(p, blocks, After(spans, |spans|), l, from, n)
    && utterances == Audible(p, blocks, spans)
  }

  lemma ProgressIsGreedy(
    p: Params, blocks: seq<Block>, spans: seq<Span>, utterances: seq<seq<Block>>, l: Local, from: nat)
    requires Progress(p, blocks, |blocks|, spans, utterances, l, from)
    ensures Greedy(p, blocks, spans) && InRange(blocks, spans) && utterances == Audible(p, blocks, spans)
  {
    forall s ensures !NextSpan(p, blocks, After(spans, |spans|), s) {
      if l.isRecording {
        OpenIsLast(p, blocks, After(spans, |spans|), from, s);
      } else {
        SilentIsLast(p, blocks, After(spans, |spans|), s);
      }
    }
  }

  lemma NothingHeard(p: Params, blocks: seq<Block>)
    ensures Progress(p, blocks, 0, [], [], IDLE, 0)
  {
  }

  method HandleBlock(p: Params, block: Block, spans: seq<Span>, utterances: seq<seq<Block>>, l: Local,
                     ghost blocks: seq<Block>, n: nat, ghost from: nat)
    returns (spans': seq<Span>, utterances': seq<seq<Block>>, l': Local, ghost from': nat)
    requires n < |blocks| && block == blocks[n] && Progress(p, blocks, n, spans, utterances, l, from)
    ensures Progress(p, blocks, n + 1, spans', utterances', l', from')
  {
    spans', utterances' := spans, utterances;
    var finished;
    ghost var after := After(spans, |spans|);
    l', finished, from' := Hear(p, l, block, blocks, after, from, n);
    if finished.Some? {
      var s := Span(n + 1 - |finished.value|, n + 1);
      ChainGrows(p, blocks, spans, s);
      utterances' := Report(p, utterances, finished.value, blocks, spans, s);
      spans' := spans + [s];
    }
  }

  /** Where the loop stands before input `i`, having heard `n` blocks. */
  ghost predicate Listening(p: Params, inputs: seq<Input>, i: nat, blocks: seq<Block>, n: nat,
                            spans: seq<Span>, utterances: seq<seq<Block>>, l: Local, from: nat)
  {
    Reading(inputs, i, blocks, n) && Progress(p, blocks, n, spans, utterances, l, from)
  }

  lemma ListeningStarts(p: Params, inputs: seq<Input>)
    ensures Listening(p, inputs, 0, Blocks(inputs), 0, [], [], IDLE, 0)
  {
    ReadingStarts(inputs);
    NothingHeard(p, Blocks(inputs));
  }

  lemma ListeningEnds(p: Params, inputs: seq<Input>, i: nat, blocks: seq<Block>, n: nat,
                      spans: seq<Span>, utterances: seq<seq<Block>>, l: Local, from: nat)
    requires Listening(p, inputs, i, blocks, n, spans, utterances, l, from)
    requires i == |inputs| || inputs[i].Terminate?
    ensures Greedy(p, blocks, spans) && InRange(blocks, spans) && utterances == Audible(p, blocks, spans)
  {
    ReadingEnds(inputs, i, blocks, n);
    ProgressIsGreedy(p, blocks, spans, utterances, l, from);
  }

  /** One message that does not end the call; only audio is heard. */
  method HandleInput(p: Params, inputs: seq<Input>, i: nat, n: nat, spans: seq<Span>, utterances: seq<seq<Block>>,
                     l: Local, ghost blocks: seq<Block>, ghost from: nat)
    returns (n': nat, spans': seq<Span>, utterances': seq<seq<Block>>, l': Local, ghost from': nat)
    requires Listening(p, inputs, i, blocks, n, spans, utterances, l, from)
    requires i < |inputs| && !inputs[i].Terminate?
    ensures Listening(p, inputs, i + 1, blocks, n', spans', utterances', l', from')
  {
    n', spans', utterances', l', from' := n, spans, utterances, l, from;
    if inputs[i].Audio? {
      ReadAudio(inputs, i, blocks, n);
      spans', utterances', l', from' := HandleBlock(p, inputs[i].block, spans, utterances, l, blocks, n, from);
      n' := n + 1;
    } else {
      ReadOther(inputs, i, blocks, n);
    }
  }

  method Handle(p: Params, inputs: seq<Input>) returns (spans: seq<Span>, utterances: seq<seq<Block>>)
    ensures Greedy(p, Blocks(inputs), spans) && InRange(Blocks(inputs), spans)
    ensures utterances == Audible(p, Blocks(inputs), spans)
  {
    spans, utterances := [], [];
    var l, i, n: nat := IDLE, 0, 0;
    ghost var blocks, from: nat := Blocks(inputs), 0;
    ListeningStarts(p, inputs);
    while i < |inputs| && !inputs[i].Terminate?
      invariant 0 <= i <= |inputs|
      invariant Listening(p, inputs, i, blocks, n, spans, utterances, l, from)
    {
      n, spans, utterances, l, from := HandleInput(p, inputs, i, n, spans, utterances, l, blocks, from);
      i := i + 1;
    }
    ListeningEnds(p, inputs, i, blocks, n, spans, utterances, l, from);
  }

  /** A finished recording is transcribed unless it is too short. */
  method Report(p: Params, utterances: seq<seq<Block>>, audio: seq<Block>,
                ghost blocks: seq<Block>, ghost spans: seq<Span>, ghost s: Span)
    returns (after: seq<seq<Block>>)
    requires InRange(blocks, spans)
    requires s.from <= s.to <= |blocks| && audio == blocks[s.from..s.to]
    requires utterances == Audible(p, blocks, spans)
    ensures after == Audible(p, blocks, spans + [s])
  {
    var samples := CountSamples(audio);
    SlicePart(blocks, s.from, s.to, s.to);
    assert (spans + [s])[..|spans|] == spans;
    if samples as real / CALL_SAMPLE_RATE as real < p.minSeconds {
      return utterances;
    }
    return utterances + [audio];
  }

  method CountSamples(blocks: seq<Block>) returns (n: nat)
    ensures n == TotalSamples(blocks, 0, |blocks|)
  {
    n := 0;
    for i := 0 to |blocks|
      invariant n == TotalSamples(blocks, 0, i)
    {
      n := n + blocks[i].samples;
    }
  }

  lemma {:induction false} SlicePart(blocks: seq<Block>, from: nat, to: nat, e: nat)
    requires from <= e <= to <= |blocks|
    ensures TotalSamples(blocks[from..to], 0, e - from) == TotalSamples(blocks, from, e)
  {
    if from < e {
      SlicePart(blocks, from, to, e - 1);
    }
  }
}
