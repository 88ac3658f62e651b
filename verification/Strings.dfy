/**
 The string operations of the runtime's language that the modelled code relies
 on: whitespace, stripping, and searching from the right.
 */
module Strings {

  /** The characters that `str.isspace` accepts. */
  predicate IsSpace(c: char) {
    var n := c as int;
    || 9 <= n <= 13 || 28 <= n <= 32 || n == 0x85 || n == 0xA0 || n == 0x1680
    || 0x2000 <= n <= 0x200A || n == 0x2028 || n == 0x2029 || n == 0x202F || n == 0x205F || n == 0x3000
  }

  function LStrip(s: string): string {
    if s != "" && IsSpace(s[0]) then LStrip(s[1..]) else s
  }

  function RStrip(s: string): string {
    if s != "" && IsSpace(s[|s| - 1]) then RStrip(s[..|s| - 1]) else s
  }

  function Strip(s: string): string {
    RStrip(LStrip(s))
  }

  ghost predicate Blank(s: string) {
    forall i :: 0 <= i < |s| ==> IsSpace(s[i])
  }

  /** No whitespace at either end, and not empty. */
  ghost predicate Trimmed(s: string) {
    s != "" && !IsSpace(s[0]) && !IsSpace(s[|s| - 1])
  }

  /** The text with every whitespace character erased. */
  function Erase(s: string): string {
    if s == "" then "" else (if IsSpace(s[0]) then "" else [s[0]]) + Erase(s[1..])
  }

  lemma {:induction false} EraseConcat(a: string, b: string)
    ensures Erase(a + b) == Erase(a) + Erase(b)
  {
    if a == "" {
      assert a + b == b;
    } else {
      assert (a + b)[1..] == a[1..] + b;
      EraseConcat(a[1..], b);
    }
  }

  lemma {:induction false} EraseLStrip(s: string)
    ensures Erase(LStrip(s)) == Erase(s)
    ensures |LStrip(s)| <= |s|
    ensures LStrip(s) == "" || !IsSpace(LStrip(s)[0])
  {
    if s != "" && IsSpace(s[0]) {
      EraseLStrip(s[1..]);
    }
  }

  /** Stripping on the left leaves an end of the text, and drops only whitespace. */
  lemma {:induction false} LStripIsEnd(s: string)
    ensures |LStrip(s)| <= |s| && LStrip(s) == s[|s| - |LStrip(s)|..]
    ensures forall i :: 0 <= i < |s| - |LStrip(s)| ==> IsSpace(s[i])
    ensures LStrip(s) == "" || !IsSpace(LStrip(s)[0])
    ensures LStrip(s) == "" <==> Blank(s)
  {
    if s != "" && IsSpace(s[0]) {
      LStripIsEnd(s[1..]);
      assert forall i :: 1 <= i < |s| ==> s[i] == s[1..][i - 1];
    } else {
      assert s[0..] == s;
    }
  }

  lemma {:induction false} EraseRStrip(s: string)
    ensures Erase(RStrip(s)) == Erase(s)
    ensures |RStrip(s)| <= |s| && RStrip(s) == s[..|RStrip(s)|]
    ensures RStrip(s) == "" || !IsSpace(RStrip(s)[|RStrip(s)| - 1])
  {
    if s != "" && IsSpace(s[|s| - 1]) {
      var front := s[..|s| - 1];
      EraseRStrip(front);
      EraseConcat(front, [s[|s| - 1]]);
      assert s == front + [s[|s| - 1]];
    }
  }

  /** Stripping loses nothing but whitespace and leaves a trimmed or empty text. */
  lemma StripErases(s: string)
    ensures Erase(Strip(s)) == Erase(s)
    ensures Strip(s) == "" || Trimmed(Strip(s))
  {
    EraseLStrip(s);
    EraseRStrip(LStrip(s));
  }

  lemma {:induction false} EraseBlank(s: string)
    ensures Erase(s) == "" <==> Blank(s)
  {
    if s != "" {
      EraseBlank(s[1..]);
      assert s == [s[0]] + s[1..];
    }
  }

  /** Stripping yields the empty text exactly for blank texts, and leaves trimmed texts alone. */
  lemma StripDecides(s: string)
    ensures Strip(s) == "" <==> Blank(s)
    ensures Trimmed(s) ==> Strip(s) == s
  {
    StripErases(s);
    EraseBlank(s);
    EraseBlank(Strip(s));
  }

  /** Does `pattern` occur in `s` at position `i`? */
  /** Stripping cuts whitespace off both ends, and all of it: what is left is empty or begins and ends with none. */
  lemma StripExactly(s: string) returns (a: nat, b: nat)
    ensures a <= b <= |s| && Strip(s) == s[a..b] && Blank(s[..a]) && Blank(s[b..])
    ensures Strip(s) == "" || Trimmed(Strip(s))
  {
    LStripIsEnd(s);
    a := |s| - |LStrip(s)|;
    var left := s[a..];
    RStripIsFront(left);
    b := a + |Strip(s)|;
    assert s[b..] == left[|Strip(s)|..];
    StripErases(s);
  }

  lemma {:induction false} RStripIsFront(s: string)
    ensures |RStrip(s)| <= |s| && RStrip(s) == s[..|RStrip(s)|] && Blank(s[|RStrip(s)|..])
  {
    if s != "" && IsSpace(s[|s| - 1]) {
      var front := s[..|s| - 1];
      RStripIsFront(front);
      assert s[|RStrip(s)|..] == front[|RStrip(s)|..] + [s[|s| - 1]];
    }
  }

  predicate OccursAt(s: string, pattern: string, i: int) {
    0 <= i && i + |pattern| <= |s| && s[i..i + |pattern|] == pattern
  }

  /** The last occurrence of `pattern` in `s` that starts before `bound`, or -1. */
  function FindLast(s: string, pattern: string, bound: nat): (r: int)
    ensures -1 <= r < bound
    ensures r >= 0 ==> OccursAt(s, pattern, r)
    ensures forall i :: r < i < bound ==> !OccursAt(s, pattern, i)
  {
    if bound == 0 then -1
    else if OccursAt(s, pattern, bound - 1) then bound - 1
    else FindLast(s, pattern, bound - 1)
  }
}
