/**
 Cutting a token stream into speakable chunks (split_stable_stream_text and the
 chunk loop of run_model_turn_streaming in agents/communication_agent.py).
 */
module StreamText {
  import opened Common
  import opened Strings

  /** Does a sentence or a line end with the character at `i`? */
  predicate EndsAt(s: string, i: int) {
    OccursAt(s, ". ", i) || OccursAt(s, "? ", i) || OccursAt(s, "! ", i) || OccursAt(s, "\n", i)
  }

  /** The last such place, or -1. */
  function Boundary(s: string): (b: int)
    ensures -1 <= b < |s|
    ensures b >= 0 ==> EndsAt(s, b)
    ensures forall i :: b < i < |s| ==> !EndsAt(s, i)
  {
    var stop := FindLast(s, ". ", |s|);
    var question := FindLast(s, "? ", |s|);
    var exclamation := FindLast(s, "! ", |s|);
    var newline := FindLast(s, "\n", |s|);
    Max(Max(stop, question), Max(exclamation, newline))
  }

  /** Where an overlong text is cut: at its last early space, or hard. */
  function CutPoint(s: string, chunkChars: nat): (at: nat)
    requires chunkChars <= |s|
    ensures at <= chunkChars && (1 <= chunkChars ==> 1 <= at)
  {
    var space := FindLast(s, " ", chunkChars);
    if space <= 0 then chunkChars else space
  }

  /** How much of the buffer the next round takes; nothing when the buffer is stable. */
  function Taken(s: string, chunkChars: nat): (at: nat)
    requires 1 <= chunkChars
    ensures at <= |s|
    ensures at == 0 <==> s == "" || (Boundary(s) < 0 && |s| < chunkChars)
  {
    if s == "" then 0
    else if Boundary(s) >= 0 then Boundary(s) + 1
    else if |s| >= chunkChars then CutPoint(s, chunkChars)
    else 0
  }

  /** The chunk of one round; a blank sentence is skipped, a blank cut is not. */
  function Chunk(s: string, at: nat): seq<string>
    requires at <= |s|
  {
    if Boundary(s) >= 0 && Strip(s[..at]) == "" then [] else [Strip(s[..at])]
  }

  function Rest(s: string, at: nat): (r: string)
    requires 1 <= at <= |s|
    ensures |r| < |s|
  {
    EraseLStrip(s[at..]);
    LStrip(s[at..])
  }

  /** The chunks that are ready, and what stays in the buffer. */
  datatype Split = Split(ready: seq<string>, rest: string)

  function SplitStable(s: string, chunkChars: nat): Split
    requires 1 <= chunkChars
    decreases |s|
  {
    var at := Taken(s, chunkChars);
    if at == 0 then Split([], s)
    else
      var later := SplitStable(Rest(s, at), chunkChars);
      Split(Chunk(s, at) + later.ready, later.rest)
  }

  /** What is ready so far, followed by the split of the buffer, is the split of the text. */
  /** A full stop, question or exclamation mark before a space, or a line break. */
  predicate SentenceEnds(s: string, i: int) {
    && 0 <= i < |s|
    && (s[i] == '\n' || (i + 1 < |s| && s[i + 1] == ' ' && (s[i] == '.' || s[i] == '?' || s[i] == '!')))
  }

  lemma EndsExactly(s: string, i: int)
    ensures EndsAt(s, i) <==> SentenceEnds(s, i)
  {
    if 0 <= i < |s| {
      assert s[i..i + 1] == [s[i]];
      if i + 1 < |s| {
        assert s[i..i + 2] == [s[i], s[i + 1]];
      }
    }
  }

  lemma BoundaryExactly(s: string)
    ensures Boundary(s) >= 0 ==> SentenceEnds(s, Boundary(s))
    ensures Boundary(s) >= 0 ==> forall i :: Boundary(s) < i < |s| ==> !SentenceEnds(s, i)
    ensures Boundary(s) < 0 ==> forall i :: 0 <= i < |s| ==> !SentenceEnds(s, i)
  {
    forall i ensures EndsAt(s, i) <==> SentenceEnds(s, i) {
      EndsExactly(s, i);
    }
  }

  /** Where a text is cut: behind its last sentence end; without one, at the last space within a chunk, or its end. */
  predicate CutsAt(s: string, chunkChars: nat, at: nat)
    requires 1 <= chunkChars
  {
    && 1 <= at <= |s|
    && (SentenceEnds(s, at - 1) || (at <= chunkChars <= |s| && (at == chunkChars || s[at] == ' ')))
    && (SentenceEnds(s, at - 1) ==> forall i :: at <= i < |s| ==> !SentenceEnds(s, i))
    && (!SentenceEnds(s, at - 1) ==>
          && (forall i :: 0 <= i < |s| ==> !SentenceEnds(s, i))
          && (at < chunkChars ==> forall i :: at < i < chunkChars ==> s[i] != ' ')
          && (at == chunkChars ==> forall i :: 1 <= i < chunkChars ==> s[i] != ' '))
  }

  /**
   A text is left alone exactly if it is shorter than a chunk and has no sentence
   end; otherwise it is cut, what is before the cut is a chunk, and what is after
   it is split in turn.
   */
  lemma SplitExactly(s: string, chunkChars: nat) returns (at: nat)
    requires 1 <= chunkChars
    ensures at == 0 <==> |s| < chunkChars && forall i :: 0 <= i < |s| ==> !SentenceEnds(s, i)
    ensures at == 0 ==> SplitStable(s, chunkChars) == Split([], s)
    ensures at > 0 ==>
              && CutsAt(s, chunkChars, at)
              && var later := SplitStable(LStrip(s[at..]), chunkChars);
                 && SplitStable(s, chunkChars).rest == later.rest
                 && (Blank(s[..at]) && SentenceEnds(s, at - 1) ==> SplitStable(s, chunkChars).ready == later.ready)
                 && (!(Blank(s[..at]) && SentenceEnds(s, at - 1)) ==>
                       SplitStable(s, chunkChars).ready == [Strip(s[..at])] + later.ready)
  {
    BoundaryExactly(s);
    at := Taken(s, chunkChars);
    if at > 0 {
      StripDecides(s[..at]);
      if Boundary(s) < 0 {
        SpaceCut(s, chunkChars);
      }
    }
  }

  lemma SpaceCut(s: string, chunkChars: nat)
    requires 1 <= chunkChars <= |s|
    ensures var at := CutPoint(s, chunkChars);
            && 1 <= at <= chunkChars && (at < chunkChars ==> s[at] == ' ')
            && (at < chunkChars ==> forall i :: at < i < chunkChars ==> s[i] != ' ')
            && (at == chunkChars ==> forall i :: 1 <= i < chunkChars ==> s[i] != ' ')
  {
    forall i | 0 <= i < |s| ensures OccursAt(s, " ", i) <==> s[i] == ' ' {
      assert s[i..i + 1] == [s[i]];
    }
  }

  ghost predicate Continues(ready: seq<string>, buffer: string, text: string, chunkChars: nat)
    requires 1 <= chunkChars
  {
    && ready + SplitStable(buffer, chunkChars).ready == SplitStable(text, chunkChars).ready
    && SplitStable(buffer, chunkChars).rest == SplitStable(text, chunkChars).rest
  }

  lemma RoundContinues(ready: seq<string>, buffer: string, text: string, chunkChars: nat, at: nat)
    requires 1 <= chunkChars && at == Taken(buffer, chunkChars) && at > 0
    requires Continues(ready, buffer, text, chunkChars)
    ensures Continues(ready + Chunk(buffer, at), Rest(buffer, at), text, chunkChars)
  {
    var later := SplitStable(Rest(buffer, at), chunkChars);
    assert SplitStable(buffer, chunkChars) == Split(Chunk(buffer, at) + later.ready, later.rest);
    ConcatAssociates(ready, Chunk(buffer, at), later.ready);
  }

  method ChooseCut(buffer: string, chunkChars: nat) returns (splitAt: nat)
    requires 1 <= chunkChars <= |buffer|
    ensures splitAt == CutPoint(buffer, chunkChars)
  {
    var space := FindLast(buffer, " ", chunkChars);
    splitAt := if space <= 0 then chunkChars else space;
  }

  method SplitStableStreamText(text: string, chunkChars: nat) returns (ready: seq<string>, buffer: string)
    requires 1 <= chunkChars
    ensures Split(ready, buffer) == SplitStable(text, chunkChars)
  {
    ready, buffer := [], text;
    assert Continues(ready, buffer, text, chunkChars);
    while buffer != ""
      invariant Continues(ready, buffer, text, chunkChars)
      decreases |buffer|
    {
      var boundary := Boundary(buffer);
      if boundary >= 0 {
        RoundContinues(ready, buffer, text, chunkChars, boundary + 1);
        var chunk := Strip(buffer[..boundary + 1]);
        if chunk != "" {
          ready := ready + [chunk];
        } else {
          assert ready + [] == ready;
        }
        buffer := Rest(buffer, boundary + 1);
        continue;
      }
      if |buffer| >= chunkChars {
        var splitAt := ChooseCut(buffer, chunkChars);
        RoundContinues(ready, buffer, text, chunkChars, splitAt);
        ready := ready + [Strip(buffer[..splitAt])];
        buffer := Rest(buffer, splitAt);
        continue;
      }
      break;
    }
    StableStays(ready, buffer, text, chunkChars);
  }

  lemma StableStays(ready: seq<string>, buffer: string, text: string, chunkChars: nat)
    requires 1 <= chunkChars && Taken(buffer, chunkChars) == 0
    requires Continues(ready, buffer, text, chunkChars)
    ensures Split(ready, buffer) == SplitStable(text, chunkChars)
  {
    assert ready + [] == ready;
  }

  function Join(chunks: seq<string>): string {
    if chunks == [] then "" else Join(chunks[..|chunks| - 1]) + chunks[|chunks| - 1]
  }

  lemma {:induction false} JoinConcat(a: seq<string>, b: seq<string>)
    ensures Join(a + b) == Join(a) + Join(b)
  {
    if b == [] {
      assert a + b == a;
    } else {
      assert (a + b)[..|a + b| - 1] == a + b[..|b| - 1];
      JoinConcat(a, b[..|b| - 1]);
    }
  }

  lemma JoinCons(chunk: string, later: seq<string>)
    ensures Erase(Join([chunk] + later)) == Erase(chunk) + Erase(Join(later))
  {
    JoinConcat([chunk], later);
    assert [chunk][..0] == [] && Join([chunk]) == chunk;
    EraseConcat(chunk, Join(later));
  }

  lemma ChunkKeepsText(s: string, at: nat, later: seq<string>)
    requires at <= |s|
    ensures Erase(Join(Chunk(s, at) + later)) == Erase(s[..at]) + Erase(Join(later))
  {
    StripErases(s[..at]);
    if Chunk(s, at) == [] {
      assert Chunk(s, at) + later == later;
    } else {
      JoinCons(Strip(s[..at]), later);
    }
  }

  /** Nothing but whitespace is lost, and no character is moved, by splitting. */
  lemma {:induction false} SplitKeepsText(s: string, chunkChars: nat)
    requires 1 <= chunkChars
    ensures Erase(Join(SplitStable(s, chunkChars).ready)) + Erase(SplitStable(s, chunkChars).rest) == Erase(s)
    decreases |s|
  {
    var at := Taken(s, chunkChars);
    if at > 0 {
      var later := SplitStable(Rest(s, at), chunkChars);
      SplitKeepsText(Rest(s, at), chunkChars);
      calc {
        Erase(Join(SplitStable(s, chunkChars).ready)) + Erase(later.rest);
        { ChunkKeepsText(s, at, later.ready); }
        (Erase(s[..at]) + Erase(Join(later.ready))) + Erase(later.rest);
        { ConcatAssociates(Erase(s[..at]), Erase(Join(later.ready)), Erase(later.rest)); }
        Erase(s[..at]) + Erase(Rest(s, at));
        { EraseLStrip(s[at..]); EraseConcat(s[..at], s[at..]); assert s[..at] + s[at..] == s; }
        Erase(s);
      }
    }
  }

  /** What stays behind is short and holds no sentence boundary. */
  lemma {:induction false} LeftoverIsShort(s: string, chunkChars: nat)
    requires 1 <= chunkChars
    ensures var rest := SplitStable(s, chunkChars).rest;
            |rest| < chunkChars && forall i :: 0 <= i < |rest| ==> !EndsAt(rest, i)
    decreases |s|
  {
    var at := Taken(s, chunkChars);
    if at > 0 {
      LeftoverIsShort(Rest(s, at), chunkChars);
    }
  }

  // ---------------------------------------------------- when the loop ends at all

  /** An index of a slice: negative ones count from the end, and none reaches outside. */
  function Index(s: string, i: int): (at: nat)
    ensures at <= |s|
  {
    if i < 0 then Max(0, |s| + i) else Min(i, |s|)
  }

  /** Where an overlong text is cut, for any chunk size. */
  function CutAnywhere(s: string, chunkChars: int): (at: nat)
    ensures at <= |s|
  {
    var space := FindLast(s, " ", Index(s, chunkChars));
    Index(s, if space <= 0 then chunkChars else space)
  }

  predicate Stable(s: string, chunkChars: int) {
    s == "" || (Boundary(s) < 0 && |s| < chunkChars)
  }

  /** What one round leaves in the buffer. */
  function Round(s: string, chunkChars: int): string {
    if Stable(s, chunkChars) then s
    else if Boundary(s) >= 0 then LStrip(s[Boundary(s) + 1..])
    else LStrip(s[CutAnywhere(s, chunkChars)..])
  }

  function Rounds(s: string, chunkChars: int, n: nat): string
    decreases n
  {
    if n == 0 then s else Rounds(Round(s, chunkChars), chunkChars, n - 1)
  }

  predicate EndsAfter(s: string, chunkChars: int, n: nat) {
    Stable(Rounds(s, chunkChars, n), chunkChars)
  }

  ghost predicate LoopEnds(s: string, chunkChars: int) {
    exists n: nat :: EndsAfter(s, chunkChars, n)
  }

  /** For positive sizes these are the rounds of the split. */
  lemma RoundIsRest(s: string, chunkChars: nat)
    requires 1 <= chunkChars && !Stable(s, chunkChars)
    ensures Taken(s, chunkChars) > 0 && Round(s, chunkChars) == Rest(s, Taken(s, chunkChars))
  {
  }

  lemma LoopEndsStep(s: string, chunkChars: int, next: string)
    requires !Stable(s, chunkChars) && next == Round(s, chunkChars)
    ensures LoopEnds(s, chunkChars) <==> LoopEnds(next, chunkChars)
  {
    if LoopEnds(s, chunkChars) {
      var n: nat :| EndsAfter(s, chunkChars, n);
      assert EndsAfter(next, chunkChars, n - 1);
    }
    if LoopEnds(next, chunkChars) {
      var n: nat :| EndsAfter(next, chunkChars, n);
      assert EndsAfter(s, chunkChars, n + 1);
    }
  }

  lemma {:induction false} StuckStays(s: string, chunkChars: int, n: nat)
    requires Round(s, chunkChars) == s
    ensures Rounds(s, chunkChars, n) == s
  {
    if n > 0 {
      StuckStays(s, chunkChars, n - 1);
    }
  }

  lemma StuckNeverEnds(s: string, chunkChars: int)
    requires !Stable(s, chunkChars) && Round(s, chunkChars) == s
    ensures !LoopEnds(s, chunkChars)
  {
    forall n: nat ensures !EndsAfter(s, chunkChars, n) {
      StuckStays(s, chunkChars, n);
    }
  }

  lemma StableEnds(s: string, chunkChars: int)
    requires Stable(s, chunkChars)
    ensures LoopEnds(s, chunkChars)
  {
    assert EndsAfter(s, chunkChars, 0);
  }

  lemma {:induction false} PositiveEnds(s: string, chunkChars: nat)
    requires 1 <= chunkChars
    ensures LoopEnds(s, chunkChars)
    decreases |s|
  {
    if Stable(s, chunkChars) {
      StableEnds(s, chunkChars);
    } else {
      RoundIsRest(s, chunkChars);
      PositiveEnds(Round(s, chunkChars), chunkChars);
      LoopEndsStep(s, chunkChars, Round(s, chunkChars));
    }
  }

  /** The last characters that a negative size keeps; size zero keeps everything. */
  function KeptEnd(s: string, chunkChars: int): string
    requires chunkChars <= 0
  {
    if chunkChars == 0 then s else s[Index(s, chunkChars)..]
  }

  lemma EndHasNoBoundary(s: string, from: nat)
    requires Boundary(s) < 0 && from <= |s|
    ensures Boundary(s[from..]) < 0
  {
    var end := s[from..];
    if Boundary(end) >= 0 {
      BoundaryOfEnd(s, from, Boundary(end));
    }
  }

  lemma BoundaryOfEnd(s: string, from: nat, i: nat)
    requires from <= |s| && i < |s| - from && EndsAt(s[from..], i)
    ensures EndsAt(s, from + i)
  {
    assert s[from..][i..i + 1] == s[from + i..from + i + 1];
    assert i + 2 <= |s| - from ==> s[from..][i..i + 2] == s[from + i..from + i + 2];
  }

  /** Whether the kept end is blank can be told from the text after whatever is cut off before that end. */
  lemma CutKeepsEnd(s: string, at: nat, chunkChars: int)
    requires chunkChars <= 0 && at <= Index(s, chunkChars) && (chunkChars == 0 ==> at == 0)
    ensures Blank(KeptEnd(s, chunkChars)) <==> Blank(KeptEnd(LStrip(s[at..]), chunkChars))
  {
    var cut := s[at..];
    var rest := LStrip(cut);
    LStripIsEnd(cut);
    var from := |s| - |rest|;
    assert rest == s[from..];
    assert forall i :: from <= i < |s| ==> s[i] == rest[i - from];
    var k, k' := |s| - |KeptEnd(s, chunkChars)|, |rest| - |KeptEnd(rest, chunkChars)|;
    assert KeptEnd(s, chunkChars) == s[k..] && KeptEnd(rest, chunkChars) == rest[k'..];
    if rest != "" && k' == 0 {
      assert k <= from;
      assert KeptEnd(rest, chunkChars)[0] == rest[0] && s[k..][from - k] == rest[0];
    } else if rest != "" {
      assert rest[k'..] == s[k..];
    } else {
      forall i | k <= i < |s| ensures IsSpace(s[i]) {
        assert IsSpace(cut[i - at]);
      }
      assert forall i :: 0 <= i < |s[k..]| ==> s[k..][i] == s[k + i];
    }
  }

  lemma CutIsBeforeEnd(s: string, chunkChars: int)
    requires chunkChars <= 0 && s != ""
    ensures CutAnywhere(s, chunkChars) <= Index(s, chunkChars)
    ensures chunkChars == 0 ==> CutAnywhere(s, chunkChars) == 0
    ensures CutAnywhere(s, chunkChars) == 0 <==> chunkChars == 0 || |s| <= -chunkChars
  {
  }

  /** Uncut and with no space in front, a text stays as it is forever. */
  lemma UncutNeverEnds(s: string, chunkChars: int)
    requires chunkChars <= 0 && Boundary(s) < 0 && s != "" && !IsSpace(s[0]) && CutAnywhere(s, chunkChars) == 0
    ensures !LoopEnds(s, chunkChars) && !Blank(KeptEnd(s, chunkChars))
  {
    assert s[0..] == s && LStrip(s) == s;
    StuckNeverEnds(s, chunkChars);
    CutIsBeforeEnd(s, chunkChars);
    assert KeptEnd(s, chunkChars)[0] == s[0];
  }

  lemma CutLeavesTail(s: string, at: nat, rest: string)
    requires Boundary(s) < 0 && at <= |s| && rest == LStrip(s[at..])
    ensures Boundary(rest) < 0 && |rest| <= |s| - at && (rest == "" || !IsSpace(rest[0]))
  {
    LStripIsEnd(s[at..]);
    assert rest == s[|s| - |rest|..];
    EndHasNoBoundary(s, |s| - |rest|);
  }

  /** Without a boundary and with no space in front, rounds shorten the text until it is empty or stuck. */
  lemma {:induction false} TailEndsExactly(s: string, chunkChars: int)
    requires chunkChars <= 0 && Boundary(s) < 0 && (s == "" || !IsSpace(s[0]))
    ensures LoopEnds(s, chunkChars) <==> Blank(KeptEnd(s, chunkChars))
    decreases |s|
  {
    if s == "" {
      StableEnds(s, chunkChars);
    } else if CutAnywhere(s, chunkChars) == 0 {
      UncutNeverEnds(s, chunkChars);
    } else {
      var at := CutAnywhere(s, chunkChars);
      var rest := LStrip(s[at..]);
      CutIsBeforeEnd(s, chunkChars);
      CutLeavesTail(s, at, rest);
      TailEndsExactly(rest, chunkChars);
      LoopEndsStep(s, chunkChars, rest);
      CutKeepsEnd(s, at, chunkChars);
    }
  }

  /** The text after its last sentence or line end. */
  function AfterBoundary(s: string): string {
    s[Boundary(s) + 1..]
  }

  lemma AfterBoundaryHasNone(s: string)
    ensures Boundary(AfterBoundary(s)) < 0
  {
    var end := AfterBoundary(s);
    if Boundary(end) >= 0 {
      BoundaryOfEnd(s, Boundary(s) + 1, Boundary(end));
    }
  }

  /** One cut and strip later, whether the loop ends is still told by the kept end. */
  lemma CutEndsExactly(s: string, at: nat, rest: string, chunkChars: int)
    requires chunkChars <= 0 && Boundary(s) < 0 && at <= Index(s, chunkChars) && (chunkChars == 0 ==> at == 0)
    requires rest == LStrip(s[at..])
    ensures LoopEnds(rest, chunkChars) <==> Blank(KeptEnd(s, chunkChars))
  {
    CutLeavesTail(s, at, rest);
    TailEndsExactly(rest, chunkChars);
    CutKeepsEnd(s, at, chunkChars);
  }

  lemma BoundedEndsExactly(s: string, chunkChars: int)
    requires chunkChars <= 0 && Boundary(s) >= 0
    ensures LoopEnds(s, chunkChars) <==> Blank(KeptEnd(AfterBoundary(s), chunkChars))
  {
    var end := AfterBoundary(s);
    AfterBoundaryHasNone(s);
    assert end[0..] == end;
    CutEndsExactly(end, 0, LStrip(end), chunkChars);
    LoopEndsStep(s, chunkChars, LStrip(end));
  }

  lemma UnboundedEndsExactly(s: string, chunkChars: int)
    requires chunkChars <= 0 && Boundary(s) < 0 && s != ""
    ensures LoopEnds(s, chunkChars) <==> Blank(KeptEnd(s, chunkChars))
  {
    var at := CutAnywhere(s, chunkChars);
    CutIsBeforeEnd(s, chunkChars);
    CutEndsExactly(s, at, LStrip(s[at..]), chunkChars);
    LoopEndsStep(s, chunkChars, LStrip(s[at..]));
  }

  /**
   The loop ends on a text if and only if the chunk size is positive or the text
   after the last boundary has nothing to keep: for size zero it is blank, for a
   negative size its last so many characters are.
   */
  lemma LoopEndsExactly(s: string, chunkChars: int)
    ensures LoopEnds(s, chunkChars) <==> 1 <= chunkChars || Blank(KeptEnd(AfterBoundary(s), Min(chunkChars, 0)))
  {
    if 1 <= chunkChars {
      PositiveEnds(s, chunkChars);
    } else {
      if s == "" {
        StableEnds(s, chunkChars);
      } else if Boundary(s) >= 0 {
        BoundedEndsExactly(s, chunkChars);
      } else {
        assert AfterBoundary(s) == s;
        UnboundedEndsExactly(s, chunkChars);
      }
    }
  }

  // ----------------------------------------------------------------- the stream

  /** Posting a chunk: blank ones are skipped, others are stripped. */
  method SubmitStreamChunk(submitted: seq<string>, text: string) returns (after: seq<string>)
    ensures after == submitted + if Strip(text) != "" then [Strip(text)] else []
  {
    if Strip(text) == "" {
      return submitted;
    }
    return submitted + [Strip(text)];
  }

  lemma SubmitKeepsText(submitted: seq<string>, text: string)
    ensures Erase(Join(submitted + if Strip(text) != "" then [Strip(text)] else [])) ==
            Erase(Join(submitted)) + Erase(text)
  {
    StripErases(text);
    EraseConcat(Join(submitted), Strip(text));
    if Strip(text) == "" {
      assert submitted + [] == submitted;
    } else {
      assert (submitted + [Strip(text)])[..|submitted|] == submitted;
    }
  }

  /** What is pending after some deltas. */
  function PendingAfter(deltas: seq<string>, chunkChars: nat): string
    requires 1 <= chunkChars
  {
    if deltas == [] then ""
    else
      var pending, delta := PendingAfter(deltas[..|deltas| - 1], chunkChars), deltas[|deltas| - 1];
      if delta == "" then pending else SplitStable(pending + delta, chunkChars).rest
  }

  /** All chunks that the deltas make ready, blank ones included. */
  function Ready(deltas: seq<string>, chunkChars: nat): seq<string>
    requires 1 <= chunkChars
  {
    if deltas == [] then []
    else
      var front, delta := deltas[..|deltas| - 1], deltas[|deltas| - 1];
      Ready(front, chunkChars) +
        if delta == "" then [] else SplitStable(PendingAfter(front, chunkChars) + delta, chunkChars).ready
  }

  /** What is posted of chunks: each by itself and stripped, unless it is blank. */
  function Posted(chunks: seq<string>): seq<string> {
    if chunks == [] then []
    else
      var last := Strip(chunks[|chunks| - 1]);
      Posted(chunks[..|chunks| - 1]) + if last == "" then [] else [last]
  }

  lemma {:induction false} PostedConcat(a: seq<string>, b: seq<string>)
    ensures Posted(a + b) == Posted(a) + Posted(b)
  {
    if b == [] {
      assert a + b == a;
    } else {
      assert (a + b)[..|a + b| - 1] == a + b[..|b| - 1];
      PostedConcat(a, b[..|b| - 1]);
    }
  }

  /** Posting loses only whitespace, and what is posted is trimmed. */
  lemma {:induction false} PostedKeepsText(chunks: seq<string>)
    ensures Erase(Join(Posted(chunks))) == Erase(Join(chunks))
    ensures forall i :: 0 <= i < |Posted(chunks)| ==> Trimmed(Posted(chunks)[i])
  {
    if chunks != [] {
      var front, last := chunks[..|chunks| - 1], chunks[|chunks| - 1];
      PostedKeepsText(front);
      SubmitKeepsText(Posted(front), last);
      StripErases(last);
      EraseConcat(Join(front), last);
      if Strip(last) == "" {
        assert Posted(front) + [] == Posted(front);
      }
    }
  }

  /** The chunks made ready and what is still pending are the deltas, once whitespace is erased. */
  lemma {:induction false} ReadyKeepsText(deltas: seq<string>, chunkChars: nat)
    requires 1 <= chunkChars
    ensures Erase(Join(Ready(deltas, chunkChars))) + Erase(PendingAfter(deltas, chunkChars)) == Erase(Join(deltas))
  {
    if deltas != [] {
      var front, delta := deltas[..|deltas| - 1], deltas[|deltas| - 1];
      ReadyKeepsText(front, chunkChars);
      EraseConcat(Join(front), delta);
      if delta == "" {
        assert Ready(front, chunkChars) + [] == Ready(front, chunkChars);
      } else {
        DeltaKeepsText(Ready(front, chunkChars), PendingAfter(front, chunkChars), delta, chunkChars);
        ConcatAssociates(Erase(Join(Ready(front, chunkChars))), Erase(PendingAfter(front, chunkChars)), Erase(delta));
      }
    }
  }

  lemma DeltaKeepsText(ready: seq<string>, pending: string, delta: string, chunkChars: nat)
    requires 1 <= chunkChars
    ensures var split := SplitStable(pending + delta, chunkChars);
            Erase(Join(ready + split.ready)) + Erase(split.rest) ==
            Erase(Join(ready)) + (Erase(pending) + Erase(delta))
  {
    var split := SplitStable(pending + delta, chunkChars);
    SplitKeepsText(pending + delta, chunkChars);
    EraseConcat(pending, delta);
    JoinConcat(ready, split.ready);
    EraseConcat(Join(ready), Join(split.ready));
    ConcatAssociates(Erase(Join(ready)), Erase(Join(split.ready)), Erase(split.rest));
  }

  /**
   Over any stream of deltas, what is submitted are the chunks made ready, each
   stripped and by itself, and at the end what is still pending; blank ones are
   left out.  Once whitespace is erased that is the concatenated deltas.  A turn
   with a chunk ready counts as streamed, even if all were blank.  If the provider
   fails after these deltas, what is pending is not submitted, and the failure is
   raised unless the turn counts as streamed.
   */
  method StreamTurn(deltas: seq<string>, chunkChars: nat, fails: bool)
    returns (submitted: seq<string>, streamed: bool, raised: bool)
    requires 1 <= chunkChars
    ensures submitted ==
              Posted(Ready(deltas, chunkChars) + if fails then [] else [PendingAfter(deltas, chunkChars)])
    ensures !fails ==> Erase(Join(submitted)) == Erase(Join(deltas)) && !raised
    ensures fails ==> Erase(Join(submitted)) + Erase(PendingAfter(deltas, chunkChars)) == Erase(Join(deltas))
    ensures fails ==> (raised <==> Ready(deltas, chunkChars) == [])
    ensures forall i :: 0 <= i < |submitted| ==> Trimmed(submitted[i])
    ensures streamed <==>
            Ready(deltas, chunkChars) != [] || (!fails && !Blank(PendingAfter(deltas, chunkChars)))
  {
    submitted, streamed := [], false;
    var pending := "";
    for i := 0 to |deltas|
      invariant submitted == Posted(Ready(deltas[..i], chunkChars))
      invariant pending == PendingAfter(deltas[..i], chunkChars)
      invariant streamed == (Ready(deltas[..i], chunkChars) != [])
    {
      assert deltas[..i + 1][..i] == deltas[..i];
      ghost var ready := Ready(deltas[..i], chunkChars);
      assert ready + [] == ready;
      if deltas[i] != "" {
        submitted, pending, streamed := TakeDelta(submitted, pending, streamed, deltas[i], chunkChars, ready);
      }
    }
    assert deltas[..|deltas|] == deltas;
    ghost var ready := Ready(deltas, chunkChars);
    ReadyKeepsText(deltas, chunkChars);
    PostedKeepsText(ready);
    if fails {
      assert ready + [] == ready;
      return submitted, streamed, !streamed;
    }
    PostedLast(ready, pending);
    if Strip(pending) != "" {
      submitted := SubmitStreamChunk(submitted, pending);
      streamed := true;
    }
    raised := false;
  }

  lemma PostedLast(ready: seq<string>, pending: string)
    ensures Posted(ready + [pending]) == Posted(ready) + if Strip(pending) == "" then [] else [Strip(pending)]
    ensures Erase(Join(Posted(ready + [pending]))) == Erase(Join(ready)) + Erase(pending)
    ensures forall i :: 0 <= i < |Posted(ready + [pending])| ==> Trimmed(Posted(ready + [pending])[i])
    ensures Strip(pending) == "" <==> Blank(pending)
  {
    assert (ready + [pending])[..|ready|] == ready;
    PostedKeepsText(ready + [pending]);
    EraseConcat(Join(ready), pending);
    StripDecides(pending);
  }

  /** One delta: split what is pending together with it, and submit what is ready. */
  method TakeDelta(submitted: seq<string>, pending: string, streamed: bool, delta: string, chunkChars: nat,
                   ghost ready: seq<string>)
    returns (after: seq<string>, rest: string, streamed': bool)
    requires 1 <= chunkChars && submitted == Posted(ready) && streamed == (ready != [])
    ensures after == Posted(ready + SplitStable(pending + delta, chunkChars).ready)
    ensures rest == SplitStable(pending + delta, chunkChars).rest
    ensures streamed' == (ready + SplitStable(pending + delta, chunkChars).ready != [])
  {
    var more;
    more, rest := SplitStableStreamText(pending + delta, chunkChars);
    PostedConcat(ready, more);
    after, streamed' := SubmitAll(submitted, more, streamed);
  }

  method SubmitAll(submitted: seq<string>, ready: seq<string>, streamed: bool)
    returns (after: seq<string>, streamed': bool)
    ensures after == submitted + Posted(ready) && streamed' == (streamed || ready != [])
  {
    after, streamed' := submitted, streamed;
    for i := 0 to |ready|
      invariant after == submitted + Posted(ready[..i]) && streamed' == (streamed || i > 0)
    {
      assert ready[..i + 1][..i] == ready[..i];
      after := SubmitStreamChunk(after, ready[i]);
      streamed' := true;
    }
    assert ready[..|ready|] == ready;
  }

  lemma BlankEnds(s: string)
    requires Blank(s)
    ensures Boundary(s) >= 0 <==> '\n' in s
  {
    if Boundary(s) >= 0 {
      assert IsSpace(s[Boundary(s)]);
    } else if '\n' in s {
      var i :| 0 <= i < |s| && s[i] == '\n';
      assert s[i..i + 1] == "\n";
      assert EndsAt(s, i);
    }
  }

  lemma BlankStrips(s: string)
    requires Blank(s)
    ensures Strip(s) == "" && LStrip(s) == ""
  {
    StripDecides(s);
    EraseBlank(s);
    EraseLStrip(s);
  }

  /**
   A blank text makes an empty chunk ready, so that the turn counts as
   streamed though nothing is submitted, if and only if it has no line break and
   is at least a chunk long.
   */
  lemma BlankReadyExactly(s: string, chunkChars: nat)
    requires 1 <= chunkChars && Blank(s)
    ensures SplitStable(s, chunkChars).ready != [] <==> '\n' !in s && |s| >= chunkChars
  {
    BlankEnds(s);
    var at := Taken(s, chunkChars);
    if at > 0 {
      BlankStrips(s[..at]);
      BlankStrips(s[at..]);
      assert SplitStable(Rest(s, at), chunkChars) == Split([], "");
    }
  }
}
