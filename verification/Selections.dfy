/** Sublists by their positions. */
module Selections {

  /** Positions of a list of length `n`, in order. */
  ghost predicate Ascending(js: seq<nat>, n: nat) {
    (forall k :: 0 <= k < |js| ==> js[k] < n) && forall k, l :: 0 <= k < l < |js| ==> js[k] < js[l]
  }

  lemma AscendingGrows(js: seq<nat>, n: nat)
    requires Ascending(js, n)
    ensures Ascending(js, n + 1) && Ascending(js + [n], n + 1) && n !in js
    ensures forall i :: i in js + [n] <==> i in js || i == n
  {
  }

  lemma AscendingBelow(js: seq<nat>, n: nat)
    requires Ascending(js, n)
    ensures forall k :: 0 <= k < |js| ==> js[k] < n
  {
  }

  /** Position `j` of `s` holds its first `x`. */
  ghost predicate FirstAt<T>(s: seq<T>, x: T, j: int) {
    0 <= j < |s| && s[j] == x && forall k :: 0 <= k < j ==> s[k] != x
  }

  /** `d` holds every element of `s` once, in the order of the first occurrences. */
  ghost predicate FirstOccurrences<T(!new)>(s: seq<T>, d: seq<T>, js: seq<nat>) {
    && Ascending(js, |s|) && |d| == |js|
    && (forall k :: 0 <= k < |d| ==> FirstAt(s, d[k], js[k]))
    && forall x :: x in s ==> x in d
  }

  lemma FirstsGrow<T(!new)>(s: seq<T>, x: T, d: seq<T>, js: seq<nat>)
    requires FirstOccurrences(s, d, js)
    ensures if x in s then FirstOccurrences(s + [x], d, js) else FirstOccurrences(s + [x], d + [x], js + [|s|])
  {
    hide Ascending;
    AscendingGrows(js, |s|);
    var more, d', js' := s + [x], if x in s then d else d + [x], if x in s then js else js + [|s|];
    forall k | 0 <= k < |d'|
      ensures FirstAt(more, d'[k], js'[k])
    {
      if k < |d| {
        assert FirstAt(s, d[k], js[k]);
      }
    }
    forall y | y in more
      ensures y in d'
    {
      assert y in s || y == x;
    }
  }
}
