/**
 Vocabulary shared by the other modules: optional values, and what it means for
 a sequence to have no duplicates or to be strictly increasing.
 */
module Common {

  datatype Option<+T> = None | Some(value: T)

  datatype Result<+T> = Ok(value: T) | Err(message: string)

  /** The set of elements of a sequence. */
  function Elements<T(==)>(s: seq<T>): set<T> {
    set x | x in s
  }

  ghost predicate NoDup<T>(s: seq<T>) {
    forall i, j :: 0 <= i < j < |s| ==> s[i] != s[j]
  }

  ghost predicate Increasing(s: seq<int>) {
    forall i, j :: 0 <= i < j < |s| ==> s[i] < s[j]
  }

  lemma ConcatAssociates<T>(a: seq<T>, b: seq<T>, c: seq<T>)
    ensures (a + b) + c == a + (b + c)
  {
  }

  function Max(a: int, b: int): int {
    if a < b then b else a
  }

  function Min(a: int, b: int): int {
    if a < b then a else b
  }

  /** The largest of `base` and the elements of `s`. */
  function MaxOr(s: seq<int>, base: int): int {
    if s == [] then base else Max(MaxOr(s[..|s| - 1], base), s[|s| - 1])
  }

  lemma {:induction false} MaxOrIsMax(s: seq<int>, base: int)
    ensures base <= MaxOr(s, base)
    ensures forall i :: 0 <= i < |s| ==> s[i] <= MaxOr(s, base)
    ensures MaxOr(s, base) == base || MaxOr(s, base) in s
  {
    if s != [] {
      var front := s[..|s| - 1];
      MaxOrIsMax(front, base);
      assert forall i :: 0 <= i < |front| ==> s[i] == front[i];
      assert forall x :: x in front ==> x in s;
    }
  }

  lemma {:induction false} MaxOrSplit(a: seq<int>, b: seq<int>, base: int)
    ensures MaxOr(a + b, base) == MaxOr(b, MaxOr(a, base))
  {
    if b == [] {
      assert a + b == a;
    } else {
      assert (a + b)[..|a + b| - 1] == a + b[..|b| - 1];
      MaxOrSplit(a, b[..|b| - 1], base);
    }
  }

  function Sum(s: seq<nat>): nat {
    if s == [] then 0 else s[0] + Sum(s[1..])
  }

  lemma {:induction false} SumGrows(s: seq<nat>, x: nat)
    ensures Sum(s + [x]) == Sum(s) + x
  {
    if s != [] {
      assert (s + [x])[1..] == s[1..] + [x];
      SumGrows(s[1..], x);
    }
  }
}
