/** Sequences without repeated elements, and the first-occurrence dedupe that
    `[...new Set(xs)]` performs: a JavaScript `Set` remembers insertion order,
    so spreading it keeps the first occurrence of every value in place. */
module Sequences {

  /** No element occurs twice. */
  ghost predicate NoDup<T>(s: seq<T>) {
    forall i, j :: 0 <= i < j < |s| ==> s[i] != s[j]
  }

  /** `[...new Set(s)]`: walk `s` left to right, keeping an element only when
      it has not been kept before. */
  function Dedupe<T(==)>(s: seq<T>): seq<T>
    decreases |s|
  {
    if |s| == 0 then []
    else
      var d := Dedupe(s[..|s| - 1]);
      if s[|s| - 1] in d then d else d + [s[|s| - 1]]
  }

  /** One more step of the walk: appending `x` keeps it only if it is new. */
  lemma DedupeSnoc<T>(s: seq<T>, x: T)
    ensures Dedupe(s + [x]) == if x in Dedupe(s) then Dedupe(s) else Dedupe(s) + [x]
  {
    assert (s + [x])[..|s|] == s;
  }

  /** Dedupe loses no value and invents none. */
  lemma {:induction false} DedupeSameElements<T>(s: seq<T>)
    ensures forall x :: x in Dedupe(s) <==> x in s
  {
    if |s| > 0 {
      var p := s[..|s| - 1];
      DedupeSameElements(p);
      assert s == p + [s[|s| - 1]];
    }
  }

  /** The result of Dedupe never repeats an element. */
  lemma {:induction false} DedupeNoDup<T>(s: seq<T>)
    ensures NoDup(Dedupe(s))
  {
    if |s| > 0 {
      DedupeNoDup(s[..|s| - 1]);
    }
  }

  /** A sequence that already has no repetition passes through unchanged. */
  lemma {:induction false} DedupeOfDistinct<T>(s: seq<T>)
    requires NoDup(s)
    ensures Dedupe(s) == s
  {
    if |s| > 0 {
      var p := s[..|s| - 1];
      assert NoDup(p);
      DedupeOfDistinct(p);
      assert s[|s| - 1] !in p;
      assert s == p + [s[|s| - 1]];
    }
  }
}
