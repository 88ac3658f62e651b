/**
 The speech-only recording of a call (voicebot/call_recording.py): segments are
 trimmed when they are appended, and sorted, merged in place and concatenated
 when the call ends.
 */
module Recording {
  import opened Common
  import opened Events

  type Sample = real

  const MAX_MERGE_GAP := 0.12

  // ------------------------------------------------------------------ trimming

  function Abs(x: real): real {
    if x < 0.0 then -x else x
  }

  /** The position of the first sample at or above the threshold, or the length. */
  function FirstVoiced(s: seq<Sample>, threshold: real): (i: nat)
    ensures i <= |s| && (i < |s| ==> Abs(s[i]) >= threshold)
    ensures forall j :: 0 <= j < i ==> Abs(s[j]) < threshold
  {
    if s == [] || Abs(s[0]) >= threshold then 0 else 1 + FirstVoiced(s[1..], threshold)
  }

  /** One past the last sample at or above the threshold, or zero. */
  function LastVoiced(s: seq<Sample>, threshold: real): (i: nat)
    ensures i <= |s| && (i > 0 ==> Abs(s[i - 1]) >= threshold)
    ensures forall j :: i <= j < |s| ==> Abs(s[j]) < threshold
  {
    if s == [] then 0 else if Abs(s[|s| - 1]) >= threshold then |s| else LastVoiced(s[..|s| - 1], threshold)
  }

  function StripSilence(s: seq<Sample>, threshold: real): seq<Sample> {
    if FirstVoiced(s, threshold) == |s| then []
    else if FirstVoiced(s, threshold) <= LastVoiced(s, threshold)
    then s[FirstVoiced(s, threshold)..LastVoiced(s, threshold)]
    else []
  }

  /** Trimming removes only quiet samples at the two ends, and all of them. */
  lemma TrimmingIsExact(s: seq<Sample>, threshold: real) returns (a: nat, b: nat)
    ensures a <= b <= |s| && StripSilence(s, threshold) == s[a..b]
    ensures forall j :: 0 <= j < |s| && (j < a || b <= j) ==> Abs(s[j]) < threshold
    ensures a < b ==> Abs(s[a]) >= threshold && Abs(s[b - 1]) >= threshold
    ensures a == b <==> forall j :: 0 <= j < |s| ==> Abs(s[j]) < threshold
  {
    a, b := FirstVoiced(s, threshold), LastVoiced(s, threshold);
    if a == |s| {
      b := a;
    }
  }

  function SumSquares(s: seq<Sample>): real {
    if s == [] then 0.0 else SumSquares(s[..|s| - 1]) + s[|s| - 1] * s[|s| - 1]
  }

  /** The root mean square is below a non-negative threshold. */
  predicate Quiet(s: seq<Sample>, threshold: real) {
    s == [] || SumSquares(s) < threshold * threshold * |s| as real
  }

  /** Audio below the threshold throughout is quiet, and audio at or above it throughout is not. */
  lemma QuietExactly(s: seq<Sample>, threshold: real)
    requires 0.0 <= threshold && s != []
    ensures (forall i :: 0 <= i < |s| ==> Abs(s[i]) < threshold) ==> Quiet(s, threshold)
    ensures (forall i :: 0 <= i < |s| ==> threshold <= Abs(s[i])) ==> !Quiet(s, threshold)
  {
    if forall i :: 0 <= i < |s| ==> Abs(s[i]) < threshold {
      SquaresBelow(s, threshold);
    }
    if forall i :: 0 <= i < |s| ==> threshold <= Abs(s[i]) {
      SquaresAbove(s, threshold);
    }
  }

  lemma {:induction false} SquaresBelow(s: seq<Sample>, threshold: real)
    requires 0.0 <= threshold && forall i :: 0 <= i < |s| ==> Abs(s[i]) < threshold
    ensures SumSquares(s) <= threshold * threshold * |s| as real
    ensures s != [] ==> SumSquares(s) < threshold * threshold * |s| as real
  {
    if s != [] {
      var n, x := |s| - 1, s[|s| - 1];
      SquaresBelow(s[..n], threshold);
      SmallerSquare(x, threshold);
      assert threshold * threshold * |s| as real == threshold * threshold * n as real + threshold * threshold;
    }
  }

  lemma {:induction false} SquaresAbove(s: seq<Sample>, threshold: real)
    requires 0.0 <= threshold && forall i :: 0 <= i < |s| ==> threshold <= Abs(s[i])
    ensures threshold * threshold * |s| as real <= SumSquares(s)
  {
    if s != [] {
      var n, x := |s| - 1, s[|s| - 1];
      SquaresAbove(s[..n], threshold);
      LargerSquare(x, threshold);
      assert threshold * threshold * |s| as real == threshold * threshold * n as real + threshold * threshold;
    }
  }

  lemma SquareOfAbs(x: real)
    ensures x * x == Abs(x) * Abs(x)
  {
    assert (-x) * (-x) == x * x;
  }

  lemma SquaresDiffer(t: real, a: real)
    ensures t * t - a * a == (t - a) * (t + a)
  {
  }

  lemma PositiveProduct(p: real, q: real)
    requires 0.0 < p && 0.0 < q
    ensures 0.0 < p * q
  {
  }

  lemma SmallerSquare(x: real, t: real)
    requires Abs(x) < t
    ensures x * x < t * t
  {
    SquareOfAbs(x);
    SquaresDiffer(t, Abs(x));
    PositiveProduct(t - Abs(x), t + Abs(x));
  }

  lemma LargerSquare(x: real, t: real)
    requires 0.0 <= t <= Abs(x)
    ensures t * t <= x * x
  {
    SquareOfAbs(x);
    if t < Abs(x) {
      SquaresDiffer(Abs(x), t);
      PositiveProduct(Abs(x) - t, Abs(x) + t);
    }
  }

  // ------------------------------------------------------------------ segments

  /** The value of a segment at one moment. */
  datatype Seg = Seg(source: string, start: real, end: real, rate: nat, samples: seq<Sample>, metadata: Data)

  predicate CanMerge(left: Seg, right: Seg) {
    && left.source == right.source && left.rate == right.rate && left.metadata == right.metadata
    && 0.0 <= right.start - left.end <= MAX_MERGE_GAP
  }

  function Merged(left: Seg, right: Seg): Seg {
    left.(samples := left.samples + right.samples, end := if left.end < right.end then right.end else left.end)
  }

  /** One more segment is merged into the last one, or added. */
  function TakeNext(front: seq<Seg>, last: Seg): seq<Seg> {
    if front != [] && CanMerge(front[|front| - 1], last)
    then front[|front| - 1 := Merged(front[|front| - 1], last)]
    else front + [last]
  }

  function Coalesced(segs: seq<Seg>): seq<Seg> {
    if segs == [] then [] else TakeNext(Coalesced(segs[..|segs| - 1]), segs[|segs| - 1])
  }

  function Audio(segs: seq<Seg>): seq<Sample> {
    if segs == [] then [] else Audio(segs[..|segs| - 1]) + segs[|segs| - 1].samples
  }

  /** Coalescing neither loses nor moves a sample. */
  lemma {:induction false} CoalescingKeepsAudio(segs: seq<Seg>)
    ensures Audio(Coalesced(segs)) == Audio(segs)
  {
    if segs != [] {
      var front, last := Coalesced(segs[..|segs| - 1]), segs[|segs| - 1];
      CoalescingKeepsAudio(segs[..|segs| - 1]);
      if front != [] && CanMerge(front[|front| - 1], last) {
        var out := Coalesced(segs);
        assert out[..|out| - 1] == front[..|front| - 1];
      } else {
        assert (front + [last])[..|front|] == front;
      }
    }
  }

  /** No two neighbours of the result can still be merged. */
  lemma {:induction false} NothingLeftToMerge(segs: seq<Seg>, i: nat)
    requires i + 1 < |Coalesced(segs)|
    ensures !CanMerge(Coalesced(segs)[i], Coalesced(segs)[i + 1])
  {
    var front := Coalesced(segs[..|segs| - 1]);
    if i + 1 < |front| {
      NothingLeftToMerge(segs[..|segs| - 1], i);
    }
  }

  /** A segment of the same speaker, rate and metadata that begins at most 0.12 seconds after another ends. */
  predicate Adjoins(left: Seg, right: Seg) {
    && left.source == right.source && left.rate == right.rate && left.metadata == right.metadata
    && right.start >= left.end && right.start - left.end <= 0.12
  }

  /** Several segments as one: it starts with the first, ends with the last to end, and has all their audio. */
  predicate IsJoined(run: seq<Seg>, joined: Seg) {
    && run != []
    && joined.source == run[0].source && joined.start == run[0].start && joined.rate == run[0].rate
    && joined.metadata == run[0].metadata && joined.samples == Audio(run)
    && (exists i :: 0 <= i < |run| && joined.end == run[i].end)
    && (forall i :: 0 <= i < |run| ==> run[i].end <= joined.end)
  }

  /** Segments in a row that each adjoin those before them, joined. */
  ghost predicate IsRun(run: seq<Seg>) {
    forall i, joined :: 0 < i < |run| && IsJoined(run[..i], joined) ==> Adjoins(joined, run[i])
  }

  /** The segments cut into runs: `cuts` holds where each begins, and no run could go on. */
  ghost predicate IsGrouped(segs: seq<Seg>, cuts: seq<int>, groups: seq<Seg>) {
    && |cuts| == |groups| + 1 && cuts[0] == 0 && cuts[|groups|] == |segs|
    && (forall k :: 0 <= k < |groups| ==> Group(segs, cuts, groups, k))
  }

  ghost predicate Group(segs: seq<Seg>, cuts: seq<int>, groups: seq<Seg>, k: nat)
    requires k < |groups| && |cuts| == |groups| + 1
  {
    && 0 <= cuts[k] < cuts[k + 1] <= |segs|
    && IsJoined(segs[cuts[k]..cuts[k + 1]], groups[k]) && IsRun(segs[cuts[k]..cuts[k + 1]])
    && (k + 1 < |groups| ==> cuts[k + 1] < |segs| && !Adjoins(groups[k], segs[cuts[k + 1]]))
  }

  lemma JoinedOnce(run: seq<Seg>, a: Seg, b: Seg)
    requires IsJoined(run, a) && IsJoined(run, b)
    ensures a == b
  {
  }

  lemma JoinOne(s: Seg)
    ensures IsJoined([s], s) && IsRun([s])
  {
    assert [s][..0] == [] && Audio([s]) == Audio([]) + s.samples;
    assert [s][0] == s;
  }

  lemma JoinMore(run: seq<Seg>, joined: Seg, s: Seg)
    requires IsJoined(run, joined) && IsRun(run) && Adjoins(joined, s)
    ensures IsJoined(run + [s], Merged(joined, s)) && IsRun(run + [s])
  {
    var more := run + [s];
    assert more[..|run|] == run;
    var i :| 0 <= i < |run| && joined.end == run[i].end;
    assert more[i] == run[i] && more[|run|] == s;
    forall i, j | 0 < i < |more| && IsJoined(more[..i], j) ensures Adjoins(j, more[i]) {
      if i < |run| {
        assert more[..i] == run[..i];
      } else {
        JoinedOnce(run, j, joined);
      }
    }
  }

  lemma KeepGroups(segs: seq<Seg>, s: Seg, cuts: seq<int>, groups: seq<Seg>, cuts': seq<int>, groups': seq<Seg>, k: nat)
    requires |cuts| == |groups| + 1 && |cuts'| == |groups'| + 1 && k + 1 < |groups| && k + 1 < |groups'|
    requires groups'[k] == groups[k] && cuts'[k] == cuts[k] && cuts'[k + 1] == cuts[k + 1]
    requires Group(segs, cuts, groups, k)
    ensures Group(segs + [s], cuts', groups', k)
  {
    assert (segs + [s])[cuts[k]..cuts[k + 1]] == segs[cuts[k]..cuts[k + 1]];
  }

  /**
   Coalescing cuts the segments into runs, each going on as long as the next
   segment is of the same speaker, rate and metadata and begins within 0.12
   seconds of the end of what has been joined, and joins each run into one.
   */
  lemma {:induction false} CoalescedExactly(segs: seq<Seg>) returns (cuts: seq<int>)
    ensures IsGrouped(segs, cuts, Coalesced(segs))
  {
    if segs == [] {
      cuts := [0];
    } else {
      var front, last := segs[..|segs| - 1], segs[|segs| - 1];
      var before := CoalescedExactly(front);
      assert segs == front + [last];
      cuts := OneMoreSegment(front, last, before, Coalesced(front));
    }
  }

  lemma OneMoreSegment(segs: seq<Seg>, s: Seg, cuts: seq<int>, groups: seq<Seg>) returns (cuts': seq<int>)
    requires IsGrouped(segs, cuts, groups)
    ensures IsGrouped(segs + [s], cuts', TakeNext(groups, s))
  {
    var n := |groups|;
    if n > 0 && Adjoins(groups[n - 1], s) {
      cuts' := cuts[n := |segs| + 1];
      ExtendGroup(segs, s, cuts, groups);
    } else {
      cuts' := cuts + [|segs| + 1];
      AddGroup(segs, s, cuts, groups);
    }
  }

  lemma ExtendLast(segs: seq<Seg>, s: Seg, cuts: seq<int>, groups: seq<Seg>)
    requires IsGrouped(segs, cuts, groups) && groups != [] && Adjoins(groups[|groups| - 1], s)
    ensures var n := |groups|;
            Group(segs + [s], cuts[n := |segs| + 1], groups[n - 1 := Merged(groups[n - 1], s)], n - 1)
  {
    var n := |groups|;
    assert Group(segs, cuts, groups, n - 1);
    var run := segs[cuts[n - 1]..cuts[n]];
    assert (segs + [s])[cuts[n - 1]..|segs| + 1] == run + [s];
    JoinMore(run, groups[n - 1], s);
  }

  lemma ExtendGroup(segs: seq<Seg>, s: Seg, cuts: seq<int>, groups: seq<Seg>)
    requires IsGrouped(segs, cuts, groups) && groups != [] && Adjoins(groups[|groups| - 1], s)
    ensures IsGrouped(segs + [s], cuts[|groups| := |segs| + 1], TakeNext(groups, s))
  {
    var n, groups' := |groups|, groups[|groups| - 1 := Merged(groups[|groups| - 1], s)];
    var cuts' := cuts[n := |segs| + 1];
    ExtendLast(segs, s, cuts, groups);
    forall k | 0 <= k < n ensures Group(segs + [s], cuts', groups', k) {
      if k < n - 1 {
        assert Group(segs, cuts, groups, k);
        KeepGroups(segs, s, cuts, groups, cuts', groups', k);
      }
    }
    assert Group(segs, cuts, groups, n - 1);
  }

  lemma AddGroup(segs: seq<Seg>, s: Seg, cuts: seq<int>, groups: seq<Seg>)
    requires IsGrouped(segs, cuts, groups)
    requires groups != [] ==> !Adjoins(groups[|groups| - 1], s)
    ensures IsGrouped(segs + [s], cuts + [|segs| + 1], groups + [s])
  {
    var more, cuts', groups' := segs + [s], cuts + [|segs| + 1], groups + [s];
    JoinOne(s);
    assert more[|segs|..] == [s];
    forall k | 0 <= k < |groups'| ensures Group(more, cuts', groups', k) {
      if k < |groups| {
        assert Group(segs, cuts, groups, k);
        assert more[cuts[k]..cuts[k + 1]] == segs[cuts[k]..cuts[k + 1]];
      }
    }
  }

  /** Starts, and so their order, survive: each result starts where one of its parts did. */
  lemma {:induction false} CoalescingKeepsOrder(segs: seq<Seg>)
    requires forall i, j :: 0 <= i < j < |segs| ==> segs[i].start <= segs[j].start
    ensures forall i, j :: 0 <= i < j < |Coalesced(segs)| ==> Coalesced(segs)[i].start <= Coalesced(segs)[j].start
    ensures segs != [] ==> Coalesced(segs) != [] && Coalesced(segs)[0].start == segs[0].start
    ensures segs != [] ==> Coalesced(segs)[|Coalesced(segs)| - 1].start <= segs[|segs| - 1].start
  {
    if |segs| > 1 {
      var front := segs[..|segs| - 1];
      CoalescingKeepsOrder(front);
      assert front[|front| - 1] == segs[|segs| - 2];
    }
  }

  /** What the segment objects hold once coalescing has overwritten some of them. */
  datatype Overwritten = Overwritten(all: seq<Seg>, head: int)

  function OverwriteNext(o: Overwritten, last: Seg): Overwritten {
    if 0 <= o.head < |o.all| && CanMerge(o.all[o.head], last)
    then Overwritten(o.all[o.head := Merged(o.all[o.head], last)] + [last], o.head)
    else Overwritten(o.all + [last], |o.all|)
  }

  function Stored(segs: seq<Seg>): (o: Overwritten)
    ensures |o.all| == |segs| && (segs != [] ==> 0 <= o.head < |segs|)
    ensures segs != [] ==> Coalesced(segs) != [] && Coalesced(segs)[|Coalesced(segs)| - 1] == o.all[o.head]
  {
    if segs == [] then Overwritten([], -1) else OverwriteNext(Stored(segs[..|segs| - 1]), segs[|segs| - 1])
  }

  lemma {:induction false} AudioOfUpdate(segs: seq<Seg>, i: nat, more: Seg)
    requires i < |segs|
    ensures |Audio(segs[i := Merged(segs[i], more)])| == |Audio(segs)| + |more.samples|
  {
    var front := segs[..|segs| - 1];
    if i == |front| {
      assert segs[i := Merged(segs[i], more)][..|front|] == front;
    } else {
      AudioOfUpdate(front, i, more);
      assert segs[i := Merged(segs[i], more)][..|front|] == front[i := Merged(front[i], more)];
    }
  }

  /** No segment can be merged into the one before it. */
  predicate NoneMerge(segs: seq<Seg>) {
    forall i :: 0 <= i < |segs| - 1 ==> !CanMerge(segs[i], segs[i + 1])
  }

  lemma {:induction false} NothingMerges(segs: seq<Seg>)
    requires NoneMerge(segs)
    ensures Coalesced(segs) == segs && Stored(segs).all == segs
    ensures segs != [] ==> Stored(segs).head == |segs| - 1
  {
    if segs != [] {
      var front, last := segs[..|segs| - 1], segs[|segs| - 1];
      NoneMergeStep(segs);
      NothingMerges(front);
      assert front + [last] == segs;
    }
  }

  /** A segment is stored once where it is added, and a second time where it is merged. */
  lemma StoredGrows(o: Overwritten, last: Seg)
    requires o.all == [] || 0 <= o.head < |o.all|
    ensures |Audio(OverwriteNext(o, last).all)| == |Audio(o.all)| + |last.samples| +
              if o.all != [] && CanMerge(o.all[o.head], last) then |last.samples| else 0
  {
    if o.all != [] && CanMerge(o.all[o.head], last) {
      var updated := o.all[o.head := Merged(o.all[o.head], last)];
      AudioOfUpdate(o.all, o.head, last);
      assert (updated + [last])[..|updated|] == updated;
    } else {
      assert (o.all + [last])[..|o.all|] == o.all;
    }
  }

  lemma NoneMergeStep(segs: seq<Seg>)
    requires segs != []
    ensures NoneMerge(segs) <==>
            NoneMerge(segs[..|segs| - 1]) && (|segs| > 1 ==> !CanMerge(segs[|segs| - 2], segs[|segs| - 1]))
  {
    var front := segs[..|segs| - 1];
    assert forall i :: 0 <= i < |front| ==> front[i] == segs[i];
    if NoneMerge(front) && (|segs| > 1 ==> !CanMerge(segs[|segs| - 2], segs[|segs| - 1])) {
      forall i | 0 <= i < |segs| - 1 ensures !CanMerge(segs[i], segs[i + 1]) {
        assert i < |front| - 1 ==> !CanMerge(front[i], front[i + 1]);
      }
    }
    if NoneMerge(segs) {
      forall i | 0 <= i < |front| - 1 ensures !CanMerge(front[i], front[i + 1]) {
        assert !CanMerge(segs[i], segs[i + 1]);
      }
    }
  }

  lemma {:induction false} SomethingMerges(segs: seq<Seg>)
    requires forall i :: 0 <= i < |segs| ==> segs[i].samples != []
    ensures |Audio(segs)| <= |Audio(Stored(segs).all)|
    ensures !NoneMerge(segs) ==> |Audio(segs)| < |Audio(Stored(segs).all)|
  {
    if segs != [] {
      var front, last := segs[..|segs| - 1], segs[|segs| - 1];
      SomethingMerges(front);
      StoredGrows(Stored(front), last);
      NoneMergeStep(segs);
      if NoneMerge(front) {
        NothingMerges(front);
      }
    }
  }

  /**
   The objects left behind by coalescing still hold exactly the segments appended
   if and only if no segment could be merged into the one before it; otherwise
   they hold more audio, and a later finalisation repeats it.
   */
  lemma NothingRepeatedExactly(segs: seq<Seg>)
    requires forall i :: 0 <= i < |segs| ==> segs[i].samples != []
    ensures Stored(segs).all == segs <==> NoneMerge(segs)
    ensures |Audio(Stored(segs).all)| == |Audio(segs)| <==> NoneMerge(segs)
    ensures |Audio(segs)| <= |Audio(Stored(segs).all)|
  {
    SomethingMerges(segs);
    if NoneMerge(segs) {
      NothingMerges(segs);
    }
  }

  lemma {:induction false} AudioOfConcat(a: seq<Seg>, b: seq<Seg>)
    ensures Audio(a + b) == Audio(a) + Audio(b)
  {
    if b == [] {
      assert a + b == a;
    } else {
      assert (a + b)[..|a + b| - 1] == a + b[..|b| - 1];
      AudioOfConcat(a, b[..|b| - 1]);
    }
  }

  lemma TakenOut<T>(b: seq<T>, p: nat)
    requires p < |b|
    ensures b == b[..p] + [b[p]] + b[p + 1..]
    ensures multiset(b) == multiset(b[..p] + b[p + 1..]) + multiset{b[p]}
  {
    assert b == b[..p] + [b[p]] + b[p + 1..];
  }

  lemma FoundIn<T>(a: seq<T>, b: seq<T>, x: T) returns (p: nat)
    requires multiset(a) == multiset(b) && x in a
    ensures p < |b| && b[p] == x
  {
    assert x in multiset(a) && x in multiset(b);
    p :| 0 <= p < |b| && b[p] == x;
  }

  lemma WithoutOne<T>(a: seq<T>, b: seq<T>) returns (p: nat)
    requires a != [] && multiset(a) == multiset(b)
    ensures p < |b| && b[p] == a[|a| - 1]
    ensures multiset(a[..|a| - 1]) == multiset(b[..p] + b[p + 1..])
  {
    p := FoundIn(a, b, a[|a| - 1]);
    TakenOut(b, p);
    assert a == a[..|a| - 1] + [a[|a| - 1]];
    CancelOne(multiset(a[..|a| - 1]), multiset(b[..p] + b[p + 1..]), b[p]);
  }

  lemma CancelOne<T>(m: multiset<T>, n: multiset<T>, x: T)
    requires m + multiset{x} == n + multiset{x}
    ensures m == n
  {
    assert m == m + multiset{x} - multiset{x} && n == n + multiset{x} - multiset{x};
  }

  /** In whatever order, the same segments last as long. */
  lemma {:induction false} AudioOfPermutation(a: seq<Seg>, b: seq<Seg>)
    requires multiset(a) == multiset(b)
    ensures |Audio(a)| == |Audio(b)|
    decreases |a|
  {
    if a == [] {
      assert |multiset(b)| == 0;
    } else {
      var p := WithoutOne(a, b);
      TakenOut(b, p);
      AudioOfPermutation(a[..|a| - 1], b[..p] + b[p + 1..]);
      AudioOfConcat(b[..p], b[p + 1..]);
      AudioOfConcat(b[..p] + [b[p]], b[p + 1..]);
      AudioOfConcat(b[..p], [b[p]]);
      assert [b[p]][..0] == [];
    }
  }

  /**
   What a second finalisation records of the segments the first left behind and
   any more, wherever those start: it has as much audio as was appended if and
   only if nothing was merged by the first, and otherwise more.
   */
  lemma SecondRecordingExactly(segs: seq<Seg>, more: seq<Seg>, all: seq<Seg>)
    requires forall i :: 0 <= i < |segs| ==> segs[i].samples != []
    requires multiset(all) == multiset(Stored(segs).all) + multiset(more)
    ensures |Audio(Coalesced(all))| == |Audio(segs)| + |Audio(more)| <==> NoneMerge(segs)
    ensures |Audio(segs)| + |Audio(more)| <= |Audio(Coalesced(all))|
    ensures NoneMerge(segs) ==> multiset(all) == multiset(segs) + multiset(more)
  {
    var held := Stored(segs).all;
    CoalescingKeepsAudio(all);
    assert multiset(held + more) == multiset(all);
    AudioOfPermutation(all, held + more);
    AudioOfConcat(held, more);
    NothingRepeatedExactly(segs);
  }

  class RecordingSegment {
    const source: string
    const start: real
    const rate: nat
    const metadata: Data
    var end: real
    var samples: seq<Sample>

    constructor (source: string, start: real, end: real, rate: nat, samples: seq<Sample>, metadata: Data)
      ensures Value() == Seg(source, start, end, rate, samples, metadata)
    {
      this.source, this.start, this.rate, this.metadata := source, start, rate, metadata;
      this.end, this.samples := end, samples;
    }

    function Value(): Seg
      reads this
    {
      Seg(source, start, end, rate, samples, metadata)
    }
  }

  function Values(segments: seq<RecordingSegment>): seq<Seg>
    reads segments
  {
    seq(|segments|, i requires 0 <= i < |segments| reads segments => segments[i].Value())
  }

  lemma {:induction false} ValuesOfPermutation(a: seq<RecordingSegment>, b: seq<RecordingSegment>)
    requires multiset(a) == multiset(b)
    ensures multiset(Values(a)) == multiset(Values(b))
    decreases |a|
  {
    if a == [] {
      assert |multiset(b)| == 0;
    } else {
      var p := WithoutOne(a, b);
      ValuesOfPermutation(a[..|a| - 1], b[..p] + b[p + 1..]);
      assert Values(a) == Values(a[..|a| - 1]) + [a[|a| - 1].Value()];
      ValuesTakenOut(b, p);
    }
  }

  lemma ValuesTakenOut(b: seq<RecordingSegment>, p: nat)
    requires p < |b|
    ensures multiset(Values(b)) == multiset(Values(b[..p] + b[p + 1..])) + multiset{b[p].Value()}
  {
    TakenOut(Values(b), p);
    assert Values(b[..p] + b[p + 1..]) == Values(b)[..p] + Values(b)[p + 1..];
  }

  /** A merged segment's audio is appended to its predecessor, in place. */
  method Absorb(coalesced: seq<RecordingSegment>, segment: RecordingSegment)
    requires NoDup(coalesced) && coalesced != [] && segment !in coalesced
    modifies coalesced[|coalesced| - 1]
    ensures var values := old(Values(coalesced));
            Values(coalesced) == values[|values| - 1 := Merged(values[|values| - 1], segment.Value())]
  {
    var previous := coalesced[|coalesced| - 1];
    previous.samples := previous.samples + segment.samples;
    previous.end := if previous.end < segment.end then segment.end else previous.end;
  }

  /** The coalesced list picks segments in order, all of them before `i`. */
  ghost predicate Picks(coalesced: seq<RecordingSegment>, segments: seq<RecordingSegment>, heads: seq<int>, i: nat) {
    && |heads| == |coalesced| && Increasing(heads)
    && forall j :: 0 <= j < |heads| ==> 0 <= heads[j] < i <= |segments| && coalesced[j] == segments[heads[j]]
  }

  /** The first segments hold what coalescing left in them, the others what they held before. */
  ghost predicate Holds(segments: seq<RecordingSegment>, left: seq<Seg>, before: seq<Seg>)
    reads segments
  {
    && |before| == |segments| && |left| <= |segments|
    && (forall k :: 0 <= k < |left| ==> segments[k].Value() == left[k])
    && (forall k :: |left| <= k < |segments| ==> segments[k].Value() == before[k])
  }

  /** One round: merge the segment into its predecessor, or add it. */
  method TakeSegment(coalesced: seq<RecordingSegment>, segments: seq<RecordingSegment>, i: nat,
                     ghost heads: seq<int>, ghost o: Overwritten, ghost before: seq<Seg>)
    returns (after: seq<RecordingSegment>, ghost heads': seq<int>)
    requires NoDup(segments) && i < |segments| && coalesced != [] && |o.all| == i
    requires Picks(coalesced, segments, heads, i) && Holds(segments, o.all, before)
    requires heads[|heads| - 1] == o.head
    modifies coalesced[|coalesced| - 1]
    ensures after != [] && Picks(after, segments, heads', i + 1)
    ensures Holds(segments, OverwriteNext(o, before[i]).all, before)
    ensures heads'[|heads'| - 1] == OverwriteNext(o, before[i]).head
    ensures Values(after) == TakeNext(old(Values(coalesced)), before[i])
  {
    var segment := segments[i];
    ghost var h := o.head;
    assert coalesced[|coalesced| - 1] == segments[h] && segment !in coalesced;
    if CanMerge(coalesced[|coalesced| - 1].Value(), segment.Value()) {
      Absorb(coalesced, segment);
      after, heads' := coalesced, heads;
      assert Values(after)[|after| - 1] == segments[h].Value();
      forall k | 0 <= k < |segments| && k != h ensures segments[k].Value() == old(segments[k].Value()) {
        assert segments[k] != segments[h];
      }
    } else {
      after, heads' := coalesced + [segment], heads + [i];
    }
  }

  lemma NextRound(before: seq<Seg>, i: nat)
    requires i < |before|
    ensures Coalesced(before[..i + 1]) == TakeNext(Coalesced(before[..i]), before[i])
    ensures Stored(before[..i + 1]) == OverwriteNext(Stored(before[..i]), before[i])
  {
    assert before[..i + 1][..i] == before[..i];
  }

  lemma HoldsAll(segments: seq<RecordingSegment>, left: seq<Seg>, before: seq<Seg>)
    requires Holds(segments, left, before) && |left| == |segments|
    ensures Values(segments) == left
  {
  }

  lemma PickedFrom(coalesced: seq<RecordingSegment>, segments: seq<RecordingSegment>, heads: seq<int>)
    requires Picks(coalesced, segments, heads, |segments|)
    ensures forall c :: c in coalesced ==> c in segments
  {
  }

  method CoalesceSegments(segments: seq<RecordingSegment>) returns (coalesced: seq<RecordingSegment>)
    requires NoDup(segments)
    modifies set s | s in segments
    ensures Values(coalesced) == Coalesced(old(Values(segments)))
    ensures Values(segments) == Stored(old(Values(segments))).all
    ensures forall c :: c in coalesced ==> c in segments
  {
    if segments == [] {
      return [];
    }
    ghost var before := Values(segments);
    ghost var heads, o;
    coalesced, heads, o := CoalesceRounds(segments, before);
    assert before[..|segments|] == before;
    HoldsAll(segments, o.all, before);
    PickedFrom(coalesced, segments, heads);
  }

  /** Where the loop stands before segment `i`. */
  ghost predicate Round(coalesced: seq<RecordingSegment>, segments: seq<RecordingSegment>, i: nat,
                        heads: seq<int>, o: Overwritten, before: seq<Seg>)
    reads segments, coalesced
  {
    && i <= |segments| == |before|
    && coalesced != [] && Picks(coalesced, segments, heads, i) && Holds(segments, o.all, before)
    && |o.all| == i && heads[|heads| - 1] == o.head
    && o == Stored(before[..i]) && Values(coalesced) == Coalesced(before[..i])
  }

  lemma FirstRound(segments: seq<RecordingSegment>, before: seq<Seg>)
    requires segments != [] && before == Values(segments)
    ensures Round([segments[0]], segments, 1, [0], Overwritten([before[0]], 0), before)
  {
    assert before[..1][..0] == [];
  }

  method NextSegment(coalesced: seq<RecordingSegment>, segments: seq<RecordingSegment>, i: nat,
                     ghost heads: seq<int>, ghost o: Overwritten, ghost before: seq<Seg>)
    returns (after: seq<RecordingSegment>, ghost heads': seq<int>, ghost o': Overwritten)
    requires NoDup(segments) && i < |segments| && Round(coalesced, segments, i, heads, o, before)
    modifies set s | s in segments
    ensures Round(after, segments, i + 1, heads', o', before)
  {
    NextRound(before, i);
    assert coalesced[|coalesced| - 1] == segments[heads[|heads| - 1]];
    after, heads' := TakeSegment(coalesced, segments, i, heads, o, before);
    o' := OverwriteNext(o, before[i]);
  }

  method CoalesceRounds(segments: seq<RecordingSegment>, ghost before: seq<Seg>)
    returns (coalesced: seq<RecordingSegment>, ghost heads: seq<int>, ghost o: Overwritten)
    requires NoDup(segments) && segments != [] && before == Values(segments)
    modifies set s | s in segments
    ensures Round(coalesced, segments, |segments|, heads, o, before)
  {
    coalesced, heads, o := [segments[0]], [0], Overwritten([before[0]], 0);
    FirstRound(segments, before);
    for i := 1 to |segments|
      invariant Round(coalesced, segments, i, heads, o, before)
    {
      coalesced, heads, o := NextSegment(coalesced, segments, i, heads, o, before);
    }
  }

  // ------------------------------------------------------------------- sorting

  function InsertByStart(sorted: seq<RecordingSegment>, s: RecordingSegment): seq<RecordingSegment> {
    if sorted != [] && s.start < sorted[|sorted| - 1].start
    then InsertByStart(sorted[..|sorted| - 1], s) + [sorted[|sorted| - 1]]
    else sorted + [s]
  }

  /** Stable sorting by start time. */
  function SortByStart(segments: seq<RecordingSegment>): seq<RecordingSegment> {
    if segments == [] then [] else InsertByStart(SortByStart(segments[..|segments| - 1]), segments[|segments| - 1])
  }

  /** The segments that start at `t`, in order. */
  function StartingAt(segments: seq<RecordingSegment>, t: real): seq<RecordingSegment> {
    if segments == [] then []
    else StartingAt(segments[..|segments| - 1], t) +
         if segments[|segments| - 1].start == t then [segments[|segments| - 1]] else []
  }

  ghost predicate SortedByStart(segments: seq<RecordingSegment>) {
    forall i, j :: 0 <= i < j < |segments| ==> segments[i].start <= segments[j].start
  }

  lemma {:induction false} InsertPermutes(sorted: seq<RecordingSegment>, s: RecordingSegment)
    ensures multiset(InsertByStart(sorted, s)) == multiset(sorted) + multiset{s}
  {
    if sorted != [] && s.start < sorted[|sorted| - 1].start {
      var front := sorted[..|sorted| - 1];
      InsertPermutes(front, s);
      assert sorted == front + [sorted[|sorted| - 1]];
    }
  }

  lemma {:induction false} InsertSorts(sorted: seq<RecordingSegment>, s: RecordingSegment, top: real)
    requires SortedByStart(sorted) && s.start <= top
    requires forall i :: 0 <= i < |sorted| ==> sorted[i].start <= top
    ensures SortedByStart(InsertByStart(sorted, s))
    ensures forall i :: 0 <= i < |InsertByStart(sorted, s)| ==> InsertByStart(sorted, s)[i].start <= top
  {
    if sorted != [] && s.start < sorted[|sorted| - 1].start {
      InsertSorts(sorted[..|sorted| - 1], s, sorted[|sorted| - 1].start);
    }
  }

  lemma {:induction false} InsertIsStable(sorted: seq<RecordingSegment>, s: RecordingSegment, t: real)
    requires SortedByStart(sorted)
    ensures StartingAt(InsertByStart(sorted, s), t) == StartingAt(sorted, t) + if s.start == t then [s] else []
  {
    if sorted != [] && s.start < sorted[|sorted| - 1].start {
      var front, last := sorted[..|sorted| - 1], sorted[|sorted| - 1];
      InsertIsStable(front, s, t);
      assert (InsertByStart(front, s) + [last])[..|InsertByStart(front, s)|] == InsertByStart(front, s);
    } else {
      assert (sorted + [s])[..|sorted|] == sorted;
    }
  }

  function Later(a: real, b: real): real {
    if a < b then b else a
  }

  lemma {:induction false} SortSorts(segments: seq<RecordingSegment>) returns (top: real)
    ensures SortedByStart(SortByStart(segments))
    ensures forall i :: 0 <= i < |SortByStart(segments)| ==> SortByStart(segments)[i].start <= top
  {
    top := 0.0;
    if segments != [] {
      var last := segments[|segments| - 1];
      var t := SortSorts(segments[..|segments| - 1]);
      top := Later(t, last.start);
      InsertSorts(SortByStart(segments[..|segments| - 1]), last, top);
    }
  }

  lemma {:induction false} SortPermutes(segments: seq<RecordingSegment>)
    ensures multiset(SortByStart(segments)) == multiset(segments)
  {
    if segments != [] {
      var front, last := segments[..|segments| - 1], segments[|segments| - 1];
      SortPermutes(front);
      InsertPermutes(SortByStart(front), last);
      assert segments == front + [last];
    }
  }

  lemma {:induction false} SortIsStable(segments: seq<RecordingSegment>, t: real)
    ensures StartingAt(SortByStart(segments), t) == StartingAt(segments, t)
  {
    if segments != [] {
      var front := segments[..|segments| - 1];
      SortIsStable(front, t);
      var _ := SortSorts(front);
      InsertIsStable(SortByStart(front), segments[|segments| - 1], t);
    }
  }

  /** Sorting permutes the segments, orders them by start, and keeps equal starts in order. */
  lemma SortingIsStable(segments: seq<RecordingSegment>, t: real)
    ensures SortedByStart(SortByStart(segments))
    ensures multiset(SortByStart(segments)) == multiset(segments)
    ensures StartingAt(SortByStart(segments), t) == StartingAt(segments, t)
  {
    var _ := SortSorts(segments);
    SortPermutes(segments);
    SortIsStable(segments, t);
  }

  lemma SortKeepsDistinct(segments: seq<RecordingSegment>)
    requires NoDup(segments)
    ensures NoDup(SortByStart(segments)) && |SortByStart(segments)| == |segments|
    ensures forall i :: 0 <= i < |segments| ==> SortByStart(segments)[i] in segments
  {
    SortPermutes(segments);
    var sorted := SortByStart(segments);
    assert |multiset(sorted)| == |sorted| && |multiset(segments)| == |segments|;
    forall i | 0 <= i < |sorted| ensures sorted[i] in segments {
      assert sorted[i] in multiset(sorted);
      assert sorted[i] in multiset(segments);
    }
    DistinctOnce(segments);
    OnceDistinct(sorted);
  }

  lemma {:induction false} DistinctOnce(segments: seq<RecordingSegment>)
    requires NoDup(segments)
    ensures forall s :: multiset(segments)[s] <= 1
  {
    if segments != [] {
      var front := segments[..|segments| - 1];
      DistinctOnce(front);
      assert segments == front + [segments[|segments| - 1]];
      assert segments[|segments| - 1] !in front;
    }
  }

  lemma {:induction false} OnceDistinct(segments: seq<RecordingSegment>)
    requires forall s :: multiset(segments)[s] <= 1
    ensures NoDup(segments)
  {
    if segments != [] {
      var front, last := segments[..|segments| - 1], segments[|segments| - 1];
      assert segments == front + [last];
      forall s ensures multiset(front)[s] <= 1 {
        assert multiset(segments)[s] == multiset(front)[s] + multiset{last}[s];
      }
      OnceDistinct(front);
      assert multiset(segments)[last] == multiset(front)[last] + 1;
      assert last !in front;
    }
  }

  lemma SortedTogether(first: seq<RecordingSegment>, added: seq<RecordingSegment>)
    ensures multiset(Values(SortByStart(first + added))) ==
            multiset(Values(SortByStart(first))) + multiset(Values(added))
  {
    SortedValues(first);
    SortedValues(first + added);
    ValuesOfConcat(first, added);
  }

  lemma ValuesOfConcat(first: seq<RecordingSegment>, added: seq<RecordingSegment>)
    ensures multiset(Values(first + added)) == multiset(Values(first)) + multiset(Values(added))
  {
    assert Values(first + added) == Values(first) + Values(added);
  }

  lemma SortedValues(segments: seq<RecordingSegment>)
    ensures multiset(Values(SortByStart(segments))) == multiset(Values(segments))
  {
    SortPermutes(segments);
    ValuesOfPermutation(SortByStart(segments), segments);
  }

  /** What coalescing leaves in the objects. */
  ghost predicate LeftBy(segments: seq<RecordingSegment>, sorted: seq<Seg>)
    reads SortByStart(segments)
  {
    Values(SortByStart(segments)) == Stored(sorted).all
  }

  /** The second recording of objects that a first one has overwritten, and of any appended since. */
  lemma ObjectsRecordedAgain(first: seq<RecordingSegment>, added: seq<RecordingSegment>, segs: seq<Seg>)
    requires forall i :: 0 <= i < |segs| ==> segs[i].samples != []
    requires LeftBy(first, segs)
    ensures var again := Coalesced(Values(SortByStart(first + added)));
            && (|Audio(again)| == |Audio(segs)| + |Audio(Values(added))| <==> NoneMerge(segs))
            && |Audio(segs)| + |Audio(Values(added))| <= |Audio(again)|
  {
    SortedTogether(first, added);
    SecondRecordingExactly(segs, Values(added), Values(SortByStart(first + added)));
  }

  // ------------------------------------------------------------------ finalising

  /** How one segment appears in the recording's metadata; rounding is left out. */
  datatype Part = Part(segment: Seg, duration: real, playbackStart: real, playbackSamples: nat)

  datatype Metadata = Metadata(
    callId: string, rate: nat, parts: seq<Part>, samples: nat, duration: real, voiceSpan: real)

  type Resampler = (seq<Sample>, nat, nat) -> seq<Sample>

  function Playback(segs: seq<Seg>, rate: nat, resample: Resampler): seq<seq<Sample>> {
    seq(|segs|, i requires 0 <= i < |segs| => resample(segs[i].samples, segs[i].rate, rate))
  }

  function Concat(tracks: seq<seq<Sample>>): seq<Sample> {
    if tracks == [] then [] else Concat(tracks[..|tracks| - 1]) + tracks[|tracks| - 1]
  }

  /** Samples played before the k-th track. */
  function LengthBefore(tracks: seq<seq<Sample>>, k: nat): nat
    requires k <= |tracks|
  {
    if k == 0 then 0 else LengthBefore(tracks, k - 1) + |tracks[k - 1]|
  }

  lemma {:induction false} LengthOfConcat(tracks: seq<seq<Sample>>)
    ensures |Concat(tracks)| == LengthBefore(tracks, |tracks|)
  {
    if tracks != [] {
      var front := tracks[..|tracks| - 1];
      LengthOfConcat(front);
      LengthOfPrefix(tracks, |front|, |front|);
    }
  }

  lemma {:induction false} LengthOfPrefix(tracks: seq<seq<Sample>>, n: nat, k: nat)
    requires k <= n <= |tracks|
    ensures LengthBefore(tracks[..n], k) == LengthBefore(tracks, k)
  {
    if k > 0 {
      LengthOfPrefix(tracks, n, k - 1);
    }
  }

  /** The k-th track is what plays from its playback start on. */
  lemma {:induction false} TrackPlaysAtItsStart(tracks: seq<seq<Sample>>, k: nat)
    requires k < |tracks|
    ensures LengthBefore(tracks, k) + |tracks[k]| <= |Concat(tracks)|
    ensures Concat(tracks)[LengthBefore(tracks, k)..LengthBefore(tracks, k) + |tracks[k]|] == tracks[k]
  {
    var front := tracks[..|tracks| - 1];
    LengthOfConcat(front);
    LengthOfPrefix(tracks, |front|, |front|);
    if k < |front| {
      TrackPlaysAtItsStart(front, k);
      LengthOfPrefix(tracks, |front|, k);
      assert front[k] == tracks[k];
      var at := LengthBefore(tracks, k);
      assert Concat(tracks)[at..at + |tracks[k]|] == Concat(front)[at..at + |tracks[k]|];
    }
  }

  predicate PartFits(part: Part, seg: Seg, tracks: seq<seq<Sample>>, k: nat, rate: nat)
    requires k < |tracks| && 1 <= rate && 1 <= seg.rate
  {
    && part.segment == seg
    && part.duration == |seg.samples| as real / seg.rate as real
    && part.playbackStart == LengthBefore(tracks, k) as real / rate as real
    && part.playbackSamples == |tracks[k]|
  }

  ghost predicate Describes(m: Metadata, segs: seq<Seg>, tracks: seq<seq<Sample>>)
    requires |tracks| == |segs| && forall s :: s in segs ==> 1 <= s.rate
  {
    && segs != [] && m.rate == segs[0].rate && |m.parts| == |segs|
    && (forall k :: 0 <= k < |segs| ==> segs[k] in segs && PartFits(m.parts[k], segs[k], tracks, k, m.rate))
    && m.samples == |Concat(tracks)| && m.duration == m.samples as real / m.rate as real
    && (exists i, j :: 0 <= i < |segs| && 0 <= j < |segs| && Spans(segs, i, j) &&
                       m.voiceSpan == segs[i].end - segs[j].start)
  }

  /** Segment `i` ends last and segment `j` starts first. */
  ghost predicate Spans(segs: seq<Seg>, i: nat, j: nat)
    requires i < |segs| && j < |segs|
  {
    forall k :: 0 <= k < |segs| ==> segs[k].end <= segs[i].end && segs[j].start <= segs[k].start
  }

  lemma {:induction false} CoalescedRates(segs: seq<Seg>)
    requires forall i :: 0 <= i < |segs| ==> 1 <= segs[i].rate
    ensures forall i :: 0 <= i < |Coalesced(segs)| ==> 1 <= Coalesced(segs)[i].rate
    ensures segs != [] ==> Coalesced(segs) != []
    ensures |Coalesced(segs)| <= |segs|
  {
    if segs != [] {
      CoalescedRates(segs[..|segs| - 1]);
    }
  }

  /**
   The recording of sorted segments and its description are those of the coalesced
   segments; with one rate it is exactly the audio of the segments.
   */
  ghost predicate Records(sorted: seq<Seg>, m: Metadata, audio: seq<Sample>, resample: Resampler) {
    var segs := Coalesced(sorted);
    && segs != [] && (forall s :: s in segs ==> 1 <= s.rate)
    && Describes(m, segs, Playback(segs, segs[0].rate, resample))
    && audio == Concat(Playback(segs, segs[0].rate, resample))
    && forall rate :: OneRate(sorted, rate) && KeepsRate(resample, rate) ==> audio == Audio(sorted)
  }

  class SpeechOnlyCallRecorder {
    var callId: string
    const hasStore: bool
    const threshold: real
    const startedAt: real
    var segments: seq<RecordingSegment>
    var finalized: Option<Metadata>
    /** The audio last put into the artifact store. */
    var artifact: Option<seq<Sample>>

    ghost predicate Valid()
      reads this
    {
      0.0 <= threshold && NoDup(segments) && forall i :: 0 <= i < |segments| ==> 1 <= segments[i].rate
    }

    constructor (callId: string, hasStore: bool, silenceThreshold: real, clock: real)
      ensures Valid() && segments == [] && finalized.None? && artifact.None? && startedAt == clock
      ensures this.callId == callId && this.hasStore == hasStore
      ensures threshold == if silenceThreshold < 0.0 then 0.0 else silenceThreshold
    {
      this.callId, this.hasStore, startedAt := callId, hasStore, clock;
      threshold := if silenceThreshold < 0.0 then 0.0 else silenceThreshold;
      segments, finalized, artifact := [], None, None;
    }

    /** Speech is kept trimmed; audio that is quiet throughout or on the whole is not kept. */
    method AppendSpeech(source: string, audio: seq<Sample>, rate: nat, end: real, metadata: Data)
      requires Valid() && 1 <= rate
      modifies this`segments, this`finalized
      ensures Valid()
      ensures var trimmed := StripSilence(audio, threshold);
              if Quiet(trimmed, threshold) then
                segments == old(segments) && finalized == old(finalized)
              else
                && finalized == None
                && |segments| == |old(segments)| + 1 && segments[..|old(segments)|] == old(segments)
                && fresh(segments[|old(segments)|])
                && var at := Later(0.0, end - startedAt);
                   segments[|old(segments)|].Value() ==
                     Seg(source, Later(0.0, at - |trimmed| as real / rate as real), at, rate, trimmed, metadata)
    {
      var samples := StripSilence(audio, threshold);
      if samples == [] || Quiet(samples, threshold) {
        return;
      }
      var duration := |samples| as real / rate as real;
      var relativeEnd := Later(0.0, end - startedAt);
      var start := Later(0.0, relativeEnd - duration);
      var segment := new RecordingSegment(source, start, relativeEnd, rate, samples, metadata);
      segments := segments + [segment];
      finalized := None;
    }

    method Finalize(resample: Resampler) returns (r: Option<Metadata>)
      requires Valid()
      modifies this`finalized, this`artifact, set s | s in segments
      ensures Valid() && segments == old(segments)
      ensures old(finalized).Some? ==> r == old(finalized) && artifact == old(artifact)
      ensures old(finalized).None? ==> (r.Some? <==> old(segments) != [] && hasStore)
      ensures old(finalized).None? && r.Some? ==>
                && finalized == r && r.value.callId == callId && artifact.Some?
                && Records(old(Values(SortByStart(segments))), r.value, artifact.value, resample)
                && LeftBy(segments, old(Values(SortByStart(segments))))
      ensures old(finalized).Some? || r.None? ==> Values(segments) == old(Values(segments))
    {
      if finalized.Some? {
        return finalized;
      }
      if segments == [] || !hasStore {
        return None;
      }
      r := Produce(resample);
    }

    method Produce(resample: Resampler) returns (r: Option<Metadata>)
      requires Valid() && segments != []
      modifies this`finalized, this`artifact, set s | s in segments
      ensures Valid() && segments == old(segments)
      ensures r.Some? && finalized == r && r.value.callId == callId && artifact.Some?
      ensures Records(old(Values(SortByStart(segments))), r.value, artifact.value, resample)
      ensures LeftBy(segments, old(Values(SortByStart(segments))))
    {
      ghost var sorted := Values(SortByStart(segments));
      var values := CoalescedValues();
      r := Publish(values, sorted, resample);
    }

    method Publish(values: seq<Seg>, ghost sorted: seq<Seg>, resample: Resampler) returns (r: Option<Metadata>)
      requires Valid() && values == Coalesced(sorted) && values != [] && forall s :: s in values ==> 1 <= s.rate
      modifies this`finalized, this`artifact
      ensures r.Some? && finalized == r && r.value.callId == callId && artifact.Some?
      ensures Records(sorted, r.value, artifact.value, resample)
    {
      var tracks := Playback(values, values[0].rate, resample);
      var audio := JoinTracks(tracks);
      var metadata := Summarise(callId, values, tracks);
      finalized, artifact := Some(metadata), Some(audio);
      OneRateAudio(sorted, resample);
      return finalized;
    }

    method CoalescedValues() returns (values: seq<Seg>)
      requires Valid() && segments != []
      modifies set s | s in segments
      ensures values == Coalesced(old(Values(SortByStart(segments))))
      ensures LeftBy(segments, old(Values(SortByStart(segments))))
      ensures values != [] && forall s :: s in values ==> 1 <= s.rate
    {
      ghost var before := Values(SortByStart(segments));
      SortKeepsDistinct(segments);
      forall i | 0 <= i < |before| ensures 1 <= before[i].rate {
        assert SortByStart(segments)[i] in segments;
      }
      CoalescedRates(before);
      var coalesced := SortAndCoalesce(segments);
      values := Values(coalesced);
    }
  }

  method SortAndCoalesce(segments: seq<RecordingSegment>) returns (coalesced: seq<RecordingSegment>)
    requires NoDup(segments)
    modifies set s | s in segments
    ensures Values(coalesced) == Coalesced(old(Values(SortByStart(segments))))
    ensures LeftBy(segments, old(Values(SortByStart(segments))))
  {
    var sorted := SortByStart(segments);
    SortKeepsDistinct(segments);
    coalesced := CoalesceSegments(sorted);
  }

  method JoinTracks(tracks: seq<seq<Sample>>) returns (audio: seq<Sample>)
    ensures audio == Concat(tracks)
  {
    audio := [];
    for i := 0 to |tracks|
      invariant audio == Concat(tracks[..i])
    {
      assert tracks[..i + 1][..i] == tracks[..i];
      audio := audio + tracks[i];
    }
    assert tracks[..|tracks|] == tracks;
  }

  method DescribeParts(values: seq<Seg>, tracks: seq<seq<Sample>>, rate: nat) returns (parts: seq<Part>, played: nat)
    requires |tracks| == |values| && 1 <= rate && forall k :: 0 <= k < |values| ==> 1 <= values[k].rate
    ensures |parts| == |values| && played == LengthBefore(tracks, |tracks|)
    ensures forall k :: 0 <= k < |values| ==> PartFits(parts[k], values[k], tracks, k, rate)
  {
    parts, played := [], 0;
    for i := 0 to |values|
      invariant |parts| == i && played == LengthBefore(tracks, i)
      invariant forall k :: 0 <= k < i ==> PartFits(parts[k], values[k], tracks, k, rate)
    {
      var duration := |values[i].samples| as real / values[i].rate as real;
      parts := parts + [Part(values[i], duration, played as real / rate as real, |tracks[i]|)];
      played := played + |tracks[i]|;
    }
  }

  method Extremes(values: seq<Seg>) returns (last: nat, first: nat)
    requires values != []
    ensures last < |values| && first < |values| && Spans(values, last, first)
  {
    last, first := 0, 0;
    for i := 0 to |values|
      invariant last < |values| && first < |values|
      invariant forall k :: 0 <= k < i ==> values[k].end <= values[last].end && values[first].start <= values[k].start
    {
      if values[last].end < values[i].end {
        last := i;
      }
      if values[i].start < values[first].start {
        first := i;
      }
    }
  }

  method Summarise(callId: string, values: seq<Seg>, tracks: seq<seq<Sample>>) returns (m: Metadata)
    requires values != [] && |tracks| == |values| && forall s :: s in values ==> 1 <= s.rate
    ensures Describes(m, values, tracks) && m.callId == callId
  {
    var rate := values[0].rate;
    assert forall k :: 0 <= k < |values| ==> values[k] in values;
    var parts, played := DescribeParts(values, tracks, rate);
    var last, first := Extremes(values);
    LengthOfConcat(tracks);
    m := Metadata(callId, rate, parts, played, played as real / rate as real, values[last].end - values[first].start);
    assert Spans(values, last, first) && m.voiceSpan == values[last].end - values[first].start;
  }

  // ---------------------------------------------------------------- main theorem

  ghost predicate OneRate(segs: seq<Seg>, rate: nat) {
    forall i :: 0 <= i < |segs| ==> segs[i].rate == rate
  }

  /** Resampling to the rate the audio already has leaves it alone. */
  ghost predicate KeepsRate(resample: Resampler, rate: nat) {
    forall s: seq<Sample> :: resample(s, rate, rate) == s
  }

  lemma {:induction false} CoalescedOneRate(segs: seq<Seg>, rate: nat)
    requires OneRate(segs, rate)
    ensures OneRate(Coalesced(segs), rate)
  {
    if segs != [] {
      CoalescedOneRate(segs[..|segs| - 1], rate);
    }
  }

  lemma {:induction false} PlaybackIsAudio(segs: seq<Seg>, rate: nat, resample: Resampler)
    requires OneRate(segs, rate) && KeepsRate(resample, rate)
    ensures Concat(Playback(segs, rate, resample)) == Audio(segs)
  {
    if segs != [] {
      var front := segs[..|segs| - 1];
      PlaybackIsAudio(front, rate, resample);
      assert Playback(segs, rate, resample)[..|front|] == Playback(front, rate, resample);
    }
  }

  /**
   With one sample rate the recording is exactly the in-order concatenation of
   the kept segments, whatever was merged.
   */
  lemma RecordingIsAllSpeech(segs: seq<Seg>, rate: nat, resample: Resampler)
    requires OneRate(segs, rate) && KeepsRate(resample, rate)
    ensures Concat(Playback(Coalesced(segs), rate, resample)) == Audio(segs)
  {
    CoalescedOneRate(segs, rate);
    PlaybackIsAudio(Coalesced(segs), rate, resample);
    CoalescingKeepsAudio(segs);
  }

  lemma OneRateAudio(segs: seq<Seg>, resample: Resampler)
    ensures forall rate :: OneRate(segs, rate) && KeepsRate(resample, rate) && Coalesced(segs) != [] ==>
              Concat(Playback(Coalesced(segs), Coalesced(segs)[0].rate, resample)) == Audio(segs)
  {
    forall rate | OneRate(segs, rate) && KeepsRate(resample, rate) && Coalesced(segs) != []
      ensures Concat(Playback(Coalesced(segs), Coalesced(segs)[0].rate, resample)) == Audio(segs)
    {
      CoalescedOneRate(segs, rate);
      RecordingIsAllSpeech(segs, rate, resample);
    }
  }
}
