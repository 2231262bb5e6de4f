/** The stratified sampler: samples grouped by key, then interleaved by the deficit schedule. */
module StratifiedSampler {
  import opened DeficitSchedule

  function Sizes(buckets: seq<seq<nat>>): seq<int> {
    seq(|buckets|, k requires 0 <= k < |buckets| => |buckets[k]|)
  }

  ghost predicate Pickable(buckets: seq<seq<nat>>, picks: seq<nat>) {
    forall i :: 0 <= i < |picks| ==> picks[i] < |buckets| && |buckets[picks[i]]| > 0
  }

  /** The samples that a sequence of class picks yields: each class hands out its members in
      order, starting over if it runs out. */
  ghost function Emitted(buckets: seq<seq<nat>>, picks: seq<nat>): (out: seq<nat>)
    requires Pickable(buckets, picks)
    ensures |out| == |picks|
  {
    if |picks| == 0 then []
    else
      var init, k := picks[..|picks| - 1], picks[|picks| - 1];
      Emitted(buckets, init) + [buckets[k][Count(init, k) % |buckets[k]|]]
  }

  lemma FirstLargestUnique(d: seq<int>, j: nat, k: nat)
    requires FirstLargest(d, j) && FirstLargest(d, k)
    ensures j == k
  {
    assert d[j] <= d[k] <= d[j];
  }

  method IndexOfLargest(d: seq<int>) returns (k: nat)
    requires |d| >= 1
    ensures k == ArgMax(d)
  {
    k := 0;
    for i := 1 to |d|
      invariant k < i && FirstLargest(d[..i], k)
    {
      assert d[..i + 1][..i] == d[..i];
      assert forall j :: 0 <= j < i ==> d[..i][j] == d[j];
      if d[i] > d[k] {
        k := i;
      }
    }
    assert d[..|d|] == d;
    FirstLargestUnique(d, k, ArgMax(d));
  }

  /** One round of the inner loop: every class gains its count, then the picked one pays. */
  method Settle(deficit: seq<int>, counts: seq<int>, n: nat, cls: nat) returns (next: seq<int>)
    requires |deficit| == |counts| && cls < |counts|
    ensures next == Advance(deficit, counts, n, cls)
  {
    next := deficit;
    for k := 0 to |counts|
      invariant |next| == |counts|
      invariant forall j :: 0 <= j < k ==> next[j] == deficit[j] + counts[j]
      invariant forall j :: k <= j < |counts| ==> next[j] == deficit[j]
    {
      next := next[k := next[k] + counts[k]];
    }
    next := next[cls := next[cls] - n];
  }

  /** The pointers are the counts so far, and the next pick finds an unused member. */
  lemma NextPick(buckets: seq<seq<nat>>, n: nat, s: nat)
    requires Classes(Sizes(buckets), n) && s < n
    requires Sane(AfterPicks(Sizes(buckets), n, s), Sizes(buckets), n)
    ensures var counts := Sizes(buckets);
      var st := AfterPicks(counts, n, s);
      var cls := ArgMax(st.deficits);
      && AfterPicks(counts, n, s + 1) == Pick(st, counts, n)
      && Sane(AfterPicks(counts, n, s + 1), counts, n)
      && cls < |buckets| && Count(st.picks, cls) < |buckets[cls]|
  {
    var counts := Sizes(buckets);
    var st := AfterPicks(counts, n, s);
    PickSane(st, counts, n);
    NoWrap(counts, n, s + 1, ArgMax(st.deficits));
    CountSnoc(st.picks, ArgMax(st.deficits), ArgMax(st.deficits));
  }

  lemma EmittedSnoc(buckets: seq<seq<nat>>, init: seq<nat>, p: nat)
    requires Pickable(buckets, init) && p < |buckets| && |buckets[p]| > 0
    ensures Pickable(buckets, init + [p])
    ensures Emitted(buckets, init + [p]) == Emitted(buckets, init) + [buckets[p][Count(init, p) % |buckets[p]|]]
  {
    assert (init + [p])[..|init|] == init;
  }

  /** The interleaving loop. No pointer ever wraps, so the `%` never changes an index. */
  method Interleave(buckets: seq<seq<nat>>, n: nat) returns (out: seq<nat>)
    requires Classes(Sizes(buckets), n)
    ensures Pickable(buckets, Schedule(Sizes(buckets), n, n))
    ensures out == Emitted(buckets, Schedule(Sizes(buckets), n, n))
  {
    var counts := Sizes(buckets);
    var pointers: seq<nat> := seq(|buckets|, _ => 0);
    var deficit := counts;
    out := [];
    AllSane(counts, n, 0);
    ghost var st := AfterPicks(counts, n, 0);
    for s := 0 to n
      invariant |pointers| == |buckets| && st == AfterPicks(counts, n, s) && st.deficits == deficit
      invariant Sane(st, counts, n)
      invariant forall k :: 0 <= k < |buckets| ==> pointers[k] == Count(st.picks, k)
      invariant Pickable(buckets, st.picks) && out == Emitted(buckets, st.picks)
    {
      NextPick(buckets, n, s);
      var cls := IndexOfLargest(deficit);
      var lst := buckets[cls];
      SmallMod(pointers[cls], |lst|);
      assert pointers[cls] % |lst| == pointers[cls];
      out := out + [lst[pointers[cls] % |lst|]];
      EmittedSnoc(buckets, st.picks, cls);
      CountsAfter(buckets, st.picks, cls);
      pointers := pointers[cls := pointers[cls] + 1];
      deficit := Settle(deficit, counts, n, cls);
      st := Pick(st, counts, n);
    }
  }

  // ---- The yielded samples ------------------------------------------------------

  ghost function Members(buckets: seq<seq<nat>>): multiset<nat> {
    if |buckets| == 0 then multiset{}
    else Members(buckets[..|buckets| - 1]) + multiset(buckets[|buckets| - 1])
  }

  /** What the classes have handed out after `picks`. */
  ghost function HandedOut(buckets: seq<seq<nat>>, picks: seq<nat>, m: nat): multiset<nat>
    requires m <= |buckets|
    requires forall k :: 0 <= k < |buckets| ==> Count(picks, k) <= |buckets[k]|
  {
    if m == 0 then multiset{}
    else HandedOut(buckets, picks, m - 1) + multiset(buckets[m - 1][..Count(picks, m - 1)])
  }

  lemma Regroup(a: multiset<nat>, b: multiset<nat>, c: multiset<nat>)
    ensures a + (b + c) == (a + b) + c && (a + c) + b == (a + b) + c
  {
  }

  lemma OneMore(b: seq<nat>, c: nat)
    requires c < |b|
    ensures multiset(b[..c + 1]) == multiset(b[..c]) + multiset{b[c]}
  {
    assert b[..c + 1] == b[..c] + [b[c]];
  }

  lemma HandedByOne(buckets: seq<seq<nat>>, picks: seq<nat>, m: nat, c: nat)
    requires m < |buckets| && c == Count(picks, m)
    requires forall k :: 0 <= k < |buckets| ==> Count(picks, k) <= |buckets[k]|
    ensures HandedOut(buckets, picks, m + 1) == HandedOut(buckets, picks, m) + multiset(buckets[m][..c])
  {
  }

  lemma {:induction false} HandOne(buckets: seq<seq<nat>>, init: seq<nat>, p: nat, m: nat)
    requires m <= |buckets| && p < |buckets|
    requires forall k :: 0 <= k < |buckets| ==> Count(init + [p], k) <= |buckets[k]|
    requires forall k :: 0 <= k < |buckets| ==> Count(init + [p], k) == Count(init, k) + if k == p then 1 else 0
    ensures HandedOut(buckets, init + [p], m)
         == HandedOut(buckets, init, m) + if p < m then multiset{buckets[p][Count(init, p)]} else multiset{}
  {
    hide Count, HandedOut;
    if m == 0 {
      NothingHanded(buckets, init, p);
    } else {
      HandOne(buckets, init, p, m - 1);
      var q, c := m - 1, Count(init, m - 1);
      var before, b := HandedOut(buckets, init, q), buckets[q];
      HandedByOne(buckets, init, q, c);
      HandedByOne(buckets, init + [p], q, if q == p then c + 1 else c);
      if q == p {
        OneMore(b, c);
        Regroup(before, multiset(b[..c]), multiset{b[c]});
      } else if p < q {
        Regroup(before, multiset(b[..c]), multiset{buckets[p][Count(init, p)]});
      }
    }
  }

  lemma NothingHanded(buckets: seq<seq<nat>>, init: seq<nat>, p: nat)
    requires forall k :: 0 <= k < |buckets| ==> Count(init + [p], k) <= |buckets[k]|
    requires forall k :: 0 <= k < |buckets| ==> Count(init, k) <= |buckets[k]|
    ensures HandedOut(buckets, init + [p], 0) == HandedOut(buckets, init, 0) == multiset{}
  {
  }

  ghost predicate Covered(buckets: seq<seq<nat>>, picks: seq<nat>) {
    forall k :: 0 <= k < |buckets| ==> Count(picks, k) <= |buckets[k]|
  }

  lemma SmallMod(a: nat, b: nat)
    requires a < b
    ensures a % b == a
  {
  }

  lemma CountsAfter(buckets: seq<seq<nat>>, init: seq<nat>, p: nat)
    ensures forall k :: 0 <= k < |buckets| ==> Count(init + [p], k) == Count(init, k) + if k == p then 1 else 0
  {
    forall k | 0 <= k < |buckets|
      ensures Count(init + [p], k) == Count(init, k) + if k == p then 1 else 0
    {
      CountSnoc(init, p, k);
    }
  }

  lemma EmitOne(buckets: seq<seq<nat>>, init: seq<nat>, p: nat)
    requires Pickable(buckets, init + [p]) && Covered(buckets, init + [p])
    ensures Pickable(buckets, init) && Covered(buckets, init) && p < |buckets| && Count(init, p) < |buckets[p]|
    ensures HandedOut(buckets, init + [p], |buckets|)
         == HandedOut(buckets, init, |buckets|) + multiset{buckets[p][Count(init, p)]}
  {
    var picks := init + [p];
    assert picks[|picks| - 1] == p;
    forall i | 0 <= i < |init|
      ensures init[i] == picks[i]
    {
    }
    CountsAfter(buckets, init, p);
    HandOne(buckets, init, p, |buckets|);
  }

  lemma {:induction false} EmittedIsHandedOut(buckets: seq<seq<nat>>, picks: seq<nat>)
    requires Pickable(buckets, picks) && Covered(buckets, picks)
    ensures multiset(Emitted(buckets, picks)) == HandedOut(buckets, picks, |buckets|)
  {
    if |picks| == 0 {
      NothingHandedOut(buckets, picks, |buckets|);
    } else {
      var init, p := picks[..|picks| - 1], picks[|picks| - 1];
      assert picks == init + [p];
      EmitOne(buckets, init, p);
      EmittedIsHandedOut(buckets, init);
      SmallMod(Count(init, p), |buckets[p]|);
    }
  }

  lemma {:induction false} NothingHandedOut(buckets: seq<seq<nat>>, picks: seq<nat>, m: nat)
    requires m <= |buckets| && |picks| == 0
    ensures HandedOut(buckets, picks, m) == multiset{}
  {
    if m > 0 {
      NothingHandedOut(buckets, picks, m - 1);
      assert buckets[m - 1][..0] == [];
    }
  }

  lemma {:induction false} AllHandedOut(buckets: seq<seq<nat>>, picks: seq<nat>, m: nat)
    requires m <= |buckets|
    requires forall k :: 0 <= k < |buckets| ==> Count(picks, k) == |buckets[k]|
    ensures HandedOut(buckets, picks, m) == Members(buckets[..m])
  {
    if m > 0 {
      AllHandedOut(buckets, picks, m - 1);
      assert buckets[..m][..m - 1] == buckets[..m - 1];
      assert buckets[m - 1][..|buckets[m - 1]|] == buckets[m - 1];
    }
  }

  /** PERMUTATION. A full pass yields every member of every class exactly once. */
  lemma EachMemberOnce(buckets: seq<seq<nat>>, n: nat)
    requires Classes(Sizes(buckets), n)
    ensures Pickable(buckets, Schedule(Sizes(buckets), n, n))
    ensures multiset(Emitted(buckets, Schedule(Sizes(buckets), n, n))) == Members(buckets)
  {
    var counts := Sizes(buckets);
    var picks := Schedule(counts, n, n);
    AllSane(counts, n, n);
    forall k | 0 <= k < |buckets|
      ensures Count(picks, k) == |buckets[k]|
    {
      AllPicked(counts, n, k);
    }
    forall i | 0 <= i < |picks|
      ensures picks[i] < |buckets| && |buckets[picks[i]]| > 0
    {
      assert counts[picks[i]] >= 1;
    }
    FullPass(buckets, picks);
  }

  lemma FullPass(buckets: seq<seq<nat>>, picks: seq<nat>)
    requires Pickable(buckets, picks)
    requires forall k :: 0 <= k < |buckets| ==> Count(picks, k) == |buckets[k]|
    ensures multiset(Emitted(buckets, picks)) == Members(buckets)
  {
    EmittedIsHandedOut(buckets, picks);
    AllHandedOut(buckets, picks, |buckets|);
    assert buckets[..|buckets|] == buckets;
  }

  /** Entry `i` of the output is a member of the class of pick `i`. */
  lemma {:induction false} EmittedFromClass(buckets: seq<seq<nat>>, picks: seq<nat>, i: nat)
    requires Pickable(buckets, picks)
    requires i < |picks|
    ensures Emitted(buckets, picks)[i] in buckets[picks[i]]
  {
    if i < |picks| - 1 {
      EmittedFromClass(buckets, picks[..|picks| - 1], i);
    }
  }

  // ---- Grouping ------------------------------------------------------------------

  ghost predicate Carry<Key>(keys: seq<Key>, bucket: seq<nat>, c: Key) {
    forall i :: 0 <= i < |bucket| ==> bucket[i] < |keys| && keys[bucket[i]] == c
  }

  function Occurs<Key(==)>(keys: seq<Key>, c: Key): nat {
    if |keys| == 0 then 0
    else Occurs(keys[..|keys| - 1], c) + (if keys[|keys| - 1] == c then 1 else 0)
  }

  lemma {:induction false} OccursNone<Key>(keys: seq<Key>, c: Key)
    requires c !in keys
    ensures Occurs(keys, c) == 0
  {
    if |keys| > 0 {
      OccursNone(keys[..|keys| - 1], c);
    }
  }

  lemma OccursSnoc<Key>(keys: seq<Key>, key: Key, c: Key)
    ensures Occurs(keys + [key], c) == Occurs(keys, c) + if key == c then 1 else 0
  {
    assert (keys + [key])[..|keys|] == keys;
  }

  /** The classes are the distinct keys, and class `k` lists the samples that carry its key. */
  ghost predicate Grouped<Key>(keys: seq<Key>, classes: seq<Key>, buckets: seq<seq<nat>>) {
    && |classes| == |buckets|
    && (forall i, j :: 0 <= i < j < |classes| ==> classes[i] != classes[j])
    && (forall i :: 0 <= i < |keys| ==> keys[i] in classes)
    && (forall k :: 0 <= k < |buckets| ==> |buckets[k]| > 0)
    && (forall k :: 0 <= k < |buckets| ==> Carry(keys, buckets[k], classes[k]))
    && (forall k :: 0 <= k < |buckets| ==> |buckets[k]| == Occurs(keys, classes[k]))
    && Members(buckets) == multiset(Indices(|keys|))
    && Sum(Sizes(buckets)) == |keys|
  }

  function Indices(n: nat): seq<nat> {
    seq(n, i => i)
  }

  lemma {:induction false} MembersUpdate(buckets: seq<seq<nat>>, k: nat, i: nat)
    requires k < |buckets|
    ensures Members(buckets[k := buckets[k] + [i]]) == Members(buckets) + multiset{i}
  {
    var last := |buckets| - 1;
    var more := buckets[k] + [i];
    var grown := buckets[k := more];
    assert multiset(more) == multiset(buckets[k]) + multiset{i};
    if k == last {
      assert grown[..last] == buckets[..last];
    } else {
      assert grown[..last] == buckets[..last][k := more];
      MembersUpdate(buckets[..last], k, i);
    }
  }

  lemma GroupedNew<Key>(seen: seq<Key>, key: Key, classes: seq<Key>, buckets: seq<seq<nat>>, one: seq<nat>)
    requires Grouped(seen, classes, buckets) && key !in classes && one == [|seen|]
    ensures Grouped(seen + [key], classes + [key], buckets + [one])
  {
    hide Occurs;
    var more := buckets + [one];
    assert more[..|more| - 1] == buckets && more[|more| - 1] == one;
    assert Sizes(more)[..|more| - 1] == Sizes(buckets) && Sizes(more)[|more| - 1] == 1;
    assert Indices(|seen| + 1) == Indices(|seen|) + one;
    OccursNone(seen, key);
    forall k | 0 <= k < |more|
      ensures |more[k]| == Occurs(seen + [key], (classes + [key])[k])
    {
      OccursSnoc(seen, key, (classes + [key])[k]);
    }
  }

  lemma BucketGrows(buckets: seq<seq<nat>>, k: nat, i: nat, one: seq<nat>)
    requires k < |buckets| && one == [i]
    ensures var more := buckets[k := buckets[k] + one];
            Members(more) == Members(buckets) + multiset{i} && Sum(Sizes(more)) == Sum(Sizes(buckets)) + 1
  {
    MembersUpdate(buckets, k, i);
    SumBump(Sizes(buckets), Sizes(buckets[k := buckets[k] + one]), k);
  }

  lemma GroupedOld<Key>(seen: seq<Key>, key: Key, classes: seq<Key>, buckets: seq<seq<nat>>, k: nat, one: seq<nat>)
    requires Grouped(seen, classes, buckets) && k < |classes| && classes[k] == key && one == [|seen|]
    ensures Grouped(seen + [key], classes, buckets[k := buckets[k] + one])
  {
    hide Sum, Members, Occurs;
    var more := buckets[k := buckets[k] + one];
    BucketGrows(buckets, k, |seen|, one);
    assert Indices(|seen| + 1) == Indices(|seen|) + one;
    assert Carry(seen + [key], buckets[k] + one, key);
    forall j | 0 <= j < |more|
      ensures |more[j]| == Occurs(seen + [key], classes[j])
    {
      OccursSnoc(seen, key, classes[j]);
    }
  }

  /** The distinct keys in the order of their first appearance. */
  function FirstSeen<Key(==)>(keys: seq<Key>): seq<Key> {
    if |keys| == 0 then []
    else
      var init, last := keys[..|keys| - 1], keys[|keys| - 1];
      if last in init then FirstSeen(init) else FirstSeen(init) + [last]
  }

  ghost predicate Ascending(bucket: seq<nat>) {
    forall i, j :: 0 <= i < j < |bucket| ==> bucket[i] < bucket[j]
  }

  lemma {:induction false} FirstSeenSame<Key>(keys: seq<Key>)
    ensures forall key :: key in FirstSeen(keys) <==> key in keys
  {
    if |keys| > 0 {
      var init, last := keys[..|keys| - 1], keys[|keys| - 1];
      FirstSeenSame(init);
      assert keys == init + [last];
    }
  }

  /** Keys are in the order of their first appearance, samples of one key in ascending order. */
  ghost predicate InOrder<Key>(keys: seq<Key>, classes: seq<Key>, buckets: seq<seq<nat>>) {
    classes == FirstSeen(keys) && forall k :: 0 <= k < |buckets| ==> Ascending(buckets[k])
  }

  lemma InOrderNew<Key>(seen: seq<Key>, key: Key, classes: seq<Key>, buckets: seq<seq<nat>>, one: seq<nat>)
    requires InOrder(seen, classes, buckets) && key !in classes && one == [|seen|]
    ensures InOrder(seen + [key], classes + [key], buckets + [one])
  {
    FirstSeenSame(seen);
    assert (seen + [key])[..|seen|] == seen;
  }

  lemma InOrderOld<Key>(seen: seq<Key>, key: Key, classes: seq<Key>, buckets: seq<seq<nat>>, k: nat, one: seq<nat>)
    requires InOrder(seen, classes, buckets) && Grouped(seen, classes, buckets)
    requires k < |classes| && classes[k] == key && one == [|seen|]
    ensures InOrder(seen + [key], classes, buckets[k := buckets[k] + one])
  {
    FirstSeenSame(seen);
    assert (seen + [key])[..|seen|] == seen;
    assert Carry(seen, buckets[k], key);
    assert Ascending(buckets[k] + one);
  }

  /** The buckets before the shuffle. */
  method Group<Key(==)>(keys: seq<Key>) returns (classes: seq<Key>, buckets: seq<seq<nat>>)
    ensures Grouped(keys, classes, buckets) && InOrder(keys, classes, buckets)
  {
    classes, buckets := [], [];
    assert Sizes([]) == [];
    for i := 0 to |keys|
      invariant Grouped(keys[..i], classes, buckets) && InOrder(keys[..i], classes, buckets)
    {
      assert keys[..i + 1] == keys[..i] + [keys[i]];
      var k := 0;
      while k < |classes| && classes[k] != keys[i]
        invariant 0 <= k <= |classes|
        invariant forall j :: 0 <= j < k ==> classes[j] != keys[i]
      {
        k := k + 1;
      }
      if k == |classes| {
        GroupedNew(keys[..i], keys[i], classes, buckets, [i]);
        InOrderNew(keys[..i], keys[i], classes, buckets, [i]);
        classes, buckets := classes + [keys[i]], buckets + [[i]];
      } else {
        GroupedOld(keys[..i], keys[i], classes, buckets, k, [i]);
        InOrderOld(keys[..i], keys[i], classes, buckets, k, [i]);
        buckets := buckets[k := buckets[k] + [i]];
      }
    }
    assert keys[..|keys|] == keys;
  }

  // ---- The sampler ---------------------------------------------------------------

  /** How many of the samples `idx` carry the key `c`. */
  function Carriers<Key(==)>(keys: seq<Key>, idx: seq<nat>, c: Key): nat
    requires forall i :: 0 <= i < |idx| ==> idx[i] < |keys|
  {
    if |idx| == 0 then 0
    else Carriers(keys, idx[..|idx| - 1], c) + (if keys[idx[|idx| - 1]] == c then 1 else 0)
  }

  lemma {:induction false} CarriersAreCounts<Key>(keys: seq<Key>, idx: seq<nat>, classes: seq<Key>, picks: seq<nat>,
                                              k: nat)
    requires |idx| == |picks| && k < |classes|
    requires forall i, j :: 0 <= i < j < |classes| ==> classes[i] != classes[j]
    requires forall i :: 0 <= i < |idx| ==> idx[i] < |keys| && picks[i] < |classes| && keys[idx[i]] == classes[picks[i]]
    ensures Carriers(keys, idx, classes[k]) == Count(picks, k)
  {
    if |idx| > 0 {
      CarriersAreCounts(keys, idx[..|idx| - 1], classes, picks[..|idx| - 1], k);
    }
  }

  /** Every sample once, and in every window of consecutive samples each key is within `m` of its
      fair share, where `m` is the number of distinct keys. */
  ghost predicate Stratified<Key>(keys: seq<Key>, classes: seq<Key>, order: seq<nat>) {
    && multiset(order) == multiset(Indices(|keys|))
    && |order| == |keys|
    && (forall i :: 0 <= i < |order| ==> order[i] < |keys|)
    && forall k: nat, s: nat, t: nat :: k < |classes| && s <= t <= |order| ==>
         Fair(|keys|, |classes|, Occurs(keys, classes[k]), t - s, Carriers(keys, order[s..t], classes[k]))
  }

  ghost predicate Shuffles(shuffle: seq<nat> -> seq<nat>) {
    forall s: seq<nat> :: multiset(shuffle(s)) == multiset(s)
  }

  lemma {:induction false} MembersShuffled(a: seq<seq<nat>>, b: seq<seq<nat>>)
    requires |a| == |b| && forall k :: 0 <= k < |a| ==> multiset(a[k]) == multiset(b[k])
    ensures Members(a) == Members(b)
    ensures Sizes(a) == Sizes(b)
  {
    forall k | 0 <= k < |a|
      ensures |a[k]| == |b[k]|
    {
      assert |multiset(a[k])| == |multiset(b[k])|;
    }
    if |a| > 0 {
      MembersShuffled(a[..|a| - 1], b[..|b| - 1]);
    }
  }

  lemma CarryShuffled<Key>(keys: seq<Key>, a: seq<nat>, b: seq<nat>, c: Key)
    requires Carry(keys, a, c) && multiset(a) == multiset(b)
    ensures Carry(keys, b, c)
  {
    forall i | 0 <= i < |b|
      ensures b[i] < |keys| && keys[b[i]] == c
    {
      assert b[i] in multiset(b);
      assert b[i] in a;
    }
  }

  lemma GroupedShuffled<Key>(keys: seq<Key>, classes: seq<Key>, a: seq<seq<nat>>, b: seq<seq<nat>>)
    requires Grouped(keys, classes, a)
    requires |a| == |b| && forall k :: 0 <= k < |a| ==> multiset(a[k]) == multiset(b[k])
    ensures Grouped(keys, classes, b)
  {
    MembersShuffled(a, b);
    forall k | 0 <= k < |b|
      ensures Carry(keys, b[k], classes[k]) && |b[k]| == |a[k]|
    {
      CarryShuffled(keys, a[k], b[k], classes[k]);
      assert |b[k]| == Sizes(b)[k] && |a[k]| == Sizes(a)[k];
    }
  }

  /** What the scheduler needs of the buckets, and what it promises about them. */
  lemma BucketsSchedule<Key>(keys: seq<Key>, classes: seq<Key>, buckets: seq<seq<nat>>)
    requires |keys| >= 1 && Grouped(keys, classes, buckets)
    ensures Classes(Sizes(buckets), |keys|) && Pickable(buckets, Schedule(Sizes(buckets), |keys|, |keys|))
  {
    assert keys[0] in classes;
    EachMemberOnce(buckets, |keys|);
  }

  lemma OrderCarries<Key>(keys: seq<Key>, classes: seq<Key>, buckets: seq<seq<nat>>, picks: seq<nat>)
    requires |keys| >= 1 && Grouped(keys, classes, buckets) && Classes(Sizes(buckets), |keys|)
    requires picks == Schedule(Sizes(buckets), |keys|, |keys|) && Pickable(buckets, picks)
    ensures |Emitted(buckets, picks)| == |keys| == |picks|
    ensures forall i :: 0 <= i < |keys| ==>
      picks[i] < |classes| &&
      Emitted(buckets, picks)[i] < |keys| && keys[Emitted(buckets, picks)[i]] == classes[picks[i]]
  {
    EachMemberOnce(buckets, |keys|);
    forall i | 0 <= i < |keys|
      ensures picks[i] < |classes| && Emitted(buckets, picks)[i] < |keys| &&
              keys[Emitted(buckets, picks)[i]] == classes[picks[i]]
    {
      EmittedFromClass(buckets, picks, i);
      assert Carry(keys, buckets[picks[i]], classes[picks[i]]);
    }
  }

  lemma FairWindow(counts: seq<int>, n: nat, picks: seq<nat>, k: nat, s: nat, t: nat)
    requires Classes(counts, n) && k < |counts| && picks == Schedule(counts, n, n) && s <= t <= n == |picks|
    ensures Fair(n, |counts|, counts[k], t - s, Count(picks[s..t], k))
  {
    hide Schedule, Fair, Count;
    var width := t - s;
    assert picks[s..s + width] == picks[s..t];
    FairBatch(counts, n, s, width, n, k);
  }

  lemma WindowCarries<Key>(keys: seq<Key>, classes: seq<Key>, buckets: seq<seq<nat>>, order: seq<nat>, picks: seq<nat>,
                           k: nat, s: nat, t: nat)
    requires |keys| >= 1 && Grouped(keys, classes, buckets) && Classes(Sizes(buckets), |keys|)
    requires picks == Schedule(Sizes(buckets), |keys|, |keys|) && Pickable(buckets, picks)
    requires order == Emitted(buckets, picks) && k < |classes| && s <= t <= |keys|
    ensures |order| == |keys| == |picks| && forall i :: 0 <= i < |order| ==> order[i] < |keys|
    ensures Carriers(keys, order[s..t], classes[k]) == Count(picks[s..t], k)
  {
    hide Schedule, Emitted, Count, Carriers;
    OrderCarries(keys, classes, buckets, picks);
    CarriersAreCounts(keys, order[s..t], classes, picks[s..t], k);
  }

  lemma WindowIsFair<Key>(keys: seq<Key>, classes: seq<Key>, buckets: seq<seq<nat>>, order: seq<nat>, k: nat, s: nat,
                          t: nat)
    requires |keys| >= 1 && Grouped(keys, classes, buckets) && Classes(Sizes(buckets), |keys|)
    requires Pickable(buckets, Schedule(Sizes(buckets), |keys|, |keys|))
    requires order == Emitted(buckets, Schedule(Sizes(buckets), |keys|, |keys|))
    requires k < |classes| && s <= t <= |keys|
    ensures |order| == |keys| && forall i :: 0 <= i < |order| ==> order[i] < |keys|
    ensures Fair(|keys|, |classes|, Occurs(keys, classes[k]), t - s, Carriers(keys, order[s..t], classes[k]))
  {
    hide Schedule, Emitted, Fair, Count, Carriers, Occurs, Sum, Members;
    var n, counts := |keys|, Sizes(buckets);
    var picks := Schedule(counts, n, n);
    WindowCarries(keys, classes, buckets, order, picks, k, s, t);
    FairWindow(counts, n, picks, k, s, t);
    assert counts[k] == Occurs(keys, classes[k]);
  }

  lemma OrderIsStratified<Key>(keys: seq<Key>, classes: seq<Key>, buckets: seq<seq<nat>>, order: seq<nat>)
    requires |keys| >= 1 && Grouped(keys, classes, buckets)
    ensures Classes(Sizes(buckets), |keys|) && Pickable(buckets, Schedule(Sizes(buckets), |keys|, |keys|))
    ensures order == Emitted(buckets, Schedule(Sizes(buckets), |keys|, |keys|)) ==> Stratified(keys, classes, order)
  {
    hide Schedule, Emitted, Fair, Carriers, Occurs, Sum, Members;
    BucketsSchedule(keys, classes, buckets);
    if order == Emitted(buckets, Schedule(Sizes(buckets), |keys|, |keys|)) {
      EachMemberOnce(buckets, |keys|);
      OrderCarries(keys, classes, buckets, Schedule(Sizes(buckets), |keys|, |keys|));
      forall k: nat, s: nat, t: nat | k < |classes| && s <= t <= |keys|
        ensures Fair(|keys|, |classes|, Occurs(keys, classes[k]), t - s, Carriers(keys, order[s..t], classes[k]))
      {
        WindowIsFair(keys, classes, buckets, order, k, s, t);
      }
    }
  }

  /** `__iter__` of the sampler on the keys of the data set. */
  method StratifiedOrder<Key(==)>(keys: seq<Key>, shuffle: seq<nat> -> seq<nat>)
    returns (classes: seq<Key>, order: seq<nat>)
    requires Shuffles(shuffle)
    ensures forall i, j :: 0 <= i < j < |classes| ==> classes[i] != classes[j]
    ensures forall c :: c in keys <==> c in classes
    ensures Stratified(keys, classes, order)
  {
    var buckets;
    classes, buckets := Group(keys);
    var shuffled := seq(|buckets|, k requires 0 <= k < |buckets| => shuffle(buckets[k]));
    GroupedShuffled(keys, classes, buckets, shuffled);
    forall c | c in classes
      ensures c in keys
    {
      var k :| 0 <= k < |classes| && classes[k] == c;
      if c !in keys {
        OccursNone(keys, c);
      }
    }
    assert classes == [] || classes[0] in classes;
    order := [];
    if |keys| > 0 {
      OrderIsStratified(keys, classes, shuffled, []);
      order := Interleave(shuffled, |keys|);
      OrderIsStratified(keys, classes, shuffled, order);
    }
  }
}
