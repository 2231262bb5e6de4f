/** The deficit scheduler of stratified sampling, in exact arithmetic. */
module DeficitSchedule {

  function Sum(s: seq<int>): int {
    if |s| == 0 then 0 else Sum(s[..|s| - 1]) + s[|s| - 1]
  }

  /** How often `k` occurs. */
  function Count(s: seq<nat>, k: nat): nat {
    if |s| == 0 then 0 else Count(s[..|s| - 1], k) + (if s[|s| - 1] == k then 1 else 0)
  }

  /** `counts[k]` is the size of class `k`; the classes of `n` samples are not empty. Deficits are scaled
      by `n`. */
  ghost predicate Classes(counts: seq<int>, n: nat) {
    && Sum(counts) == n
    && |counts| >= 1
    && forall k :: 0 <= k < |counts| ==> counts[k] >= 1
  }

  /** `k` is the first position of a largest entry, the one `max` with a key picks. */
  predicate FirstLargest(d: seq<int>, k: nat) {
    && k < |d|
    && (forall i :: 0 <= i < |d| ==> d[i] <= d[k])
    && (forall i :: 0 <= i < k ==> d[i] < d[k])
  }

  lemma {:induction false} SomeLargest(d: seq<int>)
    requires |d| >= 1
    ensures exists k: nat :: FirstLargest(d, k)
  {
    if |d| == 1 {
      assert FirstLargest(d, 0);
    } else {
      var init := d[..|d| - 1];
      SomeLargest(init);
      var k: nat :| FirstLargest(init, k);
      assert forall i :: 0 <= i < |init| ==> init[i] == d[i];
      assert FirstLargest(d, if d[|d| - 1] > d[k] then |d| - 1 else k);
    }
  }

  ghost function ArgMax(d: seq<int>): (k: nat)
    requires |d| >= 1
    ensures FirstLargest(d, k)
  {
    SomeLargest(d);
    var k: nat :| FirstLargest(d, k);
    k
  }

  /** The deficits before the next pick, and the classes picked so far. */
  datatype Progress = Progress(deficits: seq<int>, picks: seq<nat>)

  /** Every class gains its count, the picked one pays `n`. */
  function Advance(d: seq<int>, counts: seq<int>, n: nat, pick: nat): seq<int>
    requires |d| == |counts|
  {
    seq(|d|, k requires 0 <= k < |d| => d[k] + counts[k] - (if k == pick then n else 0))
  }

  ghost function Pick(st: Progress, counts: seq<int>, n: nat): Progress
    requires |st.deficits| == |counts| >= 1
  {
    var k := ArgMax(st.deficits);
    Progress(Advance(st.deficits, counts, n, k), st.picks + [k])
  }

  ghost function AfterPicks(counts: seq<int>, n: nat, s: nat): (st: Progress)
    requires |counts| >= 1
    ensures |st.deficits| == |counts| && |st.picks| == s
  {
    if s == 0 then Progress(counts, []) else Pick(AfterPicks(counts, n, s - 1), counts, n)
  }

  /** The classes picked in the first `s` steps. */
  ghost function Schedule(counts: seq<int>, n: nat, s: nat): (picks: seq<nat>)
    requires |counts| >= 1
    ensures |picks| == s
  {
    AfterPicks(counts, n, s).picks
  }

  lemma {:induction false} SchedulePrefix(counts: seq<int>, n: nat, s: nat, t: nat)
    requires |counts| >= 1 && s <= t
    ensures Schedule(counts, n, t)[..s] == Schedule(counts, n, s)
    decreases t
  {
    if s < t {
      SchedulePrefix(counts, n, s, t - 1);
      assert Schedule(counts, n, t)[..s] == Schedule(counts, n, t - 1)[..s];
    }
  }

  // ---- Sums ----------------------------------------------------------------

  lemma {:induction false} SumAdvance(d: seq<int>, counts: seq<int>, n: nat, pick: nat)
    requires |d| == |counts|
    ensures Sum(Advance(d, counts, n, pick)) == Sum(d) + Sum(counts) - (if pick < |d| then n else 0)
  {
    if |d| > 0 {
      var last := |d| - 1;
      assert Advance(d, counts, n, pick)[..last] == Advance(d[..last], counts[..last], n, pick);
      SumAdvance(d[..last], counts[..last], n, pick);
    }
  }

  /** Entrywise bounds add up. */
  lemma {:induction false} SumAtLeast(d: seq<int>, low: seq<int>, slack: int)
    requires |d| == |low| && forall k :: 0 <= k < |d| ==> d[k] >= low[k] - slack
    ensures Sum(d) >= Sum(low) - |d| * slack
    ensures forall k :: 0 <= k < |d| ==> Sum(d) - d[k] >= Sum(low) - low[k] - (|d| - 1) * slack
  {
    if |d| > 0 {
      var last := |d| - 1;
      SumAtLeast(d[..last], low[..last], slack);
      assert |d| * slack == last * slack + slack;
      forall k | 0 <= k < |d|
        ensures Sum(d) - d[k] >= Sum(low) - low[k] - last * slack
      {
        if k < last {
          assert d[..last][k] == d[k] && low[..last][k] == low[k];
          assert last * slack == (last - 1) * slack + slack;
        }
      }
    }
  }

  lemma {:induction false} SumNonPositive(d: seq<int>)
    requires forall k :: 0 <= k < |d| ==> d[k] <= 0
    ensures Sum(d) <= 0
  {
    if |d| > 0 {
      SumNonPositive(d[..|d| - 1]);
    }
  }

  // ---- The deficits are bounded -----------------------------------------------

  /** The deficits always add up to `n`, so some entry is positive, and none falls to
      `counts[k] - n` or below. */
  ghost predicate Balanced(d: seq<int>, counts: seq<int>, n: nat) {
    && |d| == |counts| && Sum(d) == n
    && forall k :: 0 <= k < |counts| ==> d[k] > counts[k] - n
  }

  lemma BalancedMax(d: seq<int>, counts: seq<int>, n: nat)
    requires |counts| >= 1 && Balanced(d, counts, n) && n >= 1
    ensures d[ArgMax(d)] > 0
  {
    if d[ArgMax(d)] <= 0 {
      SumNonPositive(d);
    }
  }

  lemma BalancedAdvance(d: seq<int>, counts: seq<int>, n: nat, pick: nat)
    requires Balanced(d, counts, n) && Sum(counts) == n
    requires pick < |d| && d[pick] > 0 && forall k :: 0 <= k < |counts| ==> counts[k] >= 1
    ensures Balanced(Advance(d, counts, n, pick), counts, n)
  {
    SumAdvance(d, counts, n, pick);
  }

  lemma {:induction false} SumPositive(counts: seq<int>)
    requires |counts| >= 1 && forall k :: 0 <= k < |counts| ==> counts[k] >= 1
    ensures Sum(counts) >= 1
  {
    if |counts| > 1 {
      SumPositive(counts[..|counts| - 1]);
    } else {
      assert Sum(counts[..0]) == 0;
    }
  }

  lemma BalancedUpper(d: seq<int>, counts: seq<int>, n: nat, k: nat)
    requires Balanced(d, counts, n) && Sum(counts) == n && k < |counts|
    ensures d[k] <= counts[k] + (|counts| - 1) * (n - 1)
  {
    SumAtLeast(d, counts, n - 1);
  }

  lemma Distribute(a: int, b: int, c: int)
    ensures (a + b) * c == a * c + b * c
    ensures c * (a + b) == c * a + c * b
  {
  }

  lemma CountSnoc(picks: seq<nat>, p: nat, k: nat)
    ensures Count(picks + [p], k) == Count(picks, k) + if p == k then 1 else 0
  {
    assert (picks + [p])[..|picks|] == picks;
  }

  /** What class `k` has earned before pick `s`, and what its picks have cost. */
  function Share(c: int, s: nat): int {
    if s == 0 then 0 else Share(c, s - 1) + c
  }

  lemma {:induction false} ShareIsProduct(c: int, s: nat)
    ensures Share(c, s) == s * c
  {
    if s > 0 {
      ShareIsProduct(c, s - 1);
      Distribute(s - 1, 1, c);
    }
  }

  lemma ShareStep(c: int, n: int, s: nat, p: nat, hit: bool)
    ensures Share(c, s + 1) == Share(c, s) + c
    ensures Share(n, p + (if hit then 1 else 0)) == Share(n, p) + (if hit then n else 0)
  {
  }

  /** A deficit is what the class has earned minus what its picks have cost; deficits are
      balanced, and picks are classes. */
  ghost predicate Sane(st: Progress, counts: seq<int>, n: nat) {
    && Balanced(st.deficits, counts, n)
    && (forall i :: 0 <= i < |st.picks| ==> st.picks[i] < |counts|)
    && forall k :: 0 <= k < |counts| ==>
         st.deficits[k] == Share(counts[k], |st.picks| + 1) - Share(n, Count(st.picks, k))
  }

  lemma PickSane(st: Progress, counts: seq<int>, n: nat)
    requires Classes(counts, n) && Sane(st, counts, n)
    ensures Sane(Pick(st, counts, n), counts, n)
    ensures st.deficits[ArgMax(st.deficits)] > 0
  {
    SumPositive(counts);
    BalancedMax(st.deficits, counts, n);
    var pick := ArgMax(st.deficits);
    BalancedAdvance(st.deficits, counts, n, pick);
    var next := Pick(st, counts, n);
    forall k | 0 <= k < |counts|
      ensures next.deficits[k] == Share(counts[k], |next.picks| + 1) - Share(n, Count(next.picks, k))
    {
      CountSnoc(st.picks, pick, k);
      ShareStep(counts[k], n, |st.picks| + 1, Count(st.picks, k), k == pick);
    }
  }

  lemma {:induction false} AllSane(counts: seq<int>, n: nat, s: nat)
    requires Classes(counts, n)
    ensures Sane(AfterPicks(counts, n, s), counts, n)
    decreases s
  {
    if s > 0 {
      AllSane(counts, n, s - 1);
      PickSane(AfterPicks(counts, n, s - 1), counts, n);
    } else {
      SumPositive(counts);
      forall k | 0 <= k < |counts|
        ensures counts[k] == Share(counts[k], 1) - Share(n, Count([], k))
      {
        ShareStep(counts[k], n, 0, 0, false);
      }
    }
  }

  /** Every pick goes to a class of positive deficit. */
  lemma PickedIsPositive(counts: seq<int>, n: nat, s: nat)
    requires Classes(counts, n)
    ensures var d := AfterPicks(counts, n, s).deficits;
      && Schedule(counts, n, s + 1) == Schedule(counts, n, s) + [ArgMax(d)]
      && d[ArgMax(d)] > 0
  {
    AllSane(counts, n, s);
    PickSane(AfterPicks(counts, n, s), counts, n);
  }

  /** The picks `p` of a class of `c` members stay close to its share of `s` picks:
      `s * c / n - (m - 1) < p < s * c / n + 1`. */
  ghost predicate Close(n: int, m: int, c: int, s: int, p: int) {
    && n * p < s * c + n
    && (m >= 2 ==> n * p > s * c - n * (m - 1))
    && (m == 1 ==> p == s)
  }

  /** DISCREPANCY. After any number `s` of picks the count of class `k` lies strictly between
      `s * counts[k] / n - (m - 1)` and `s * counts[k] / n + 1`, for `m >= 2` classes. */
  lemma Discrepancy(counts: seq<int>, n: nat, s: nat, k: nat)
    requires Classes(counts, n) && k < |counts|
    ensures Close(n, |counts|, counts[k], s, Count(Schedule(counts, n, s), k))
  {
    AllSane(counts, n, s);
    SaneIsClose(AfterPicks(counts, n, s), counts, n, k);
  }

  lemma SaneIsClose(st: Progress, counts: seq<int>, n: nat, k: nat)
    requires Classes(counts, n) && Sane(st, counts, n) && k < |counts|
    ensures Close(n, |counts|, counts[k], |st.picks|, Count(st.picks, k))
  {
    BalancedUpper(st.deficits, counts, n, k);
    if |counts| == 1 {
      CountAll(st.picks);
    }
    CloseFrom(n, |counts|, counts[k], |st.picks|, Count(st.picks, k), st.deficits[k]);
  }

  lemma CloseFrom(n: nat, m: nat, c: int, s: nat, p: nat, d: int)
    requires d == Share(c, s + 1) - Share(n, p)
    requires c - n < d <= c + (m - 1) * (n - 1)
    requires m == 1 ==> p == s
    ensures Close(n, m, c, s, p)
  {
    ShareIsProduct(c, s + 1);
    ShareIsProduct(n, p);
    Distribute(s, 1, c);
    Distribute(n, -1, m - 1);
  }

  lemma {:induction false} CountAll(picks: seq<nat>)
    requires forall i :: 0 <= i < |picks| ==> picks[i] == 0
    ensures Count(picks, 0) == |picks|
  {
    if |picks| > 0 {
      CountAll(picks[..|picks| - 1]);
    }
  }

  lemma {:induction false} CountConcat(a: seq<nat>, b: seq<nat>, k: nat)
    ensures Count(a + b, k) == Count(a, k) + Count(b, k)
  {
    if |b| == 0 {
      assert a + b == a;
    } else {
      assert (a + b)[..|a + b| - 1] == a + b[..|b| - 1];
      CountConcat(a, b[..|b| - 1], k);
    }
  }

  lemma WindowCount(picks: seq<nat>, s: nat, b: nat, k: nat)
    requires s + b <= |picks|
    ensures Count(picks[s..s + b], k) == Count(picks[..s + b], k) - Count(picks[..s], k)
  {
    assert picks[..s + b] == picks[..s] + picks[s..s + b];
    CountConcat(picks[..s], picks[s..s + b], k);
  }

  /** `got` picks out of `b` are less than `m` away from the fair share `b * c / n`. */
  ghost predicate Fair(n: int, m: int, c: int, b: int, got: int) {
    b * c - n * m < n * got < b * c + n * m
  }

  lemma FairDifference(counts: seq<int>, n: nat, s: nat, b: nat, k: nat, p: nat, q: nat)
    requires Classes(counts, n) && k < |counts|
    requires Close(n, |counts|, counts[k], s, p) && Close(n, |counts|, counts[k], s + b, q)
    ensures Fair(n, |counts|, counts[k], b, q - p)
  {
    SumPositive(counts);
    if |counts| == 1 {
      OneClass(counts);
    }
    Between(n, |counts|, counts[k], s, b, p, q);
  }

  /** FAIR BATCHES. Any `b` consecutive picks hold class `k` within `m` of its fair share. */
  lemma FairBatch(counts: seq<int>, n: nat, s: nat, b: nat, total: nat, k: nat)
    requires Classes(counts, n) && k < |counts| && s + b <= total
    ensures Fair(n, |counts|, counts[k], b, Count(Schedule(counts, n, total)[s..s + b], k))
  {
    hide Schedule, Fair, Count;
    var picks := Schedule(counts, n, total);
    SchedulePrefix(counts, n, s, total);
    SchedulePrefix(counts, n, s + b, total);
    Discrepancy(counts, n, s, k);
    Discrepancy(counts, n, s + b, k);
    FairDifference(counts, n, s, b, k, Count(picks[..s], k), Count(picks[..s + b], k));
    WindowCount(picks, s, b, k);
  }

  lemma OneClass(counts: seq<int>)
    requires |counts| == 1
    ensures Sum(counts) == counts[0]
  {
    assert Sum(counts[..0]) == 0;
  }

  lemma Between(n: int, m: int, c: int, s: int, b: int, p: int, q: int)
    requires n >= 1 && m >= 1 && (m == 1 ==> n == c)
    requires Close(n, m, c, s, p) && Close(n, m, c, s + b, q)
    ensures Fair(n, m, c, b, q - p)
  {
    Distribute(s, b, c);
    Distribute(m, -1, n);
    Distribute(q, -p, n);
    assert n * (-p) == -(n * p);
    if m == 1 {
      assert n * (q - p) == b * c;
    }
  }

  // ---- Every sample once ---------------------------------------------------------

  /** Within the first `n` picks no class is picked more often than it has members. */
  lemma NoWrap(counts: seq<int>, n: nat, s: nat, k: nat)
    requires Classes(counts, n) && k < |counts| && s <= n
    ensures Count(Schedule(counts, n, s), k) <= counts[k]
  {
    Discrepancy(counts, n, s, k);
    SumPositive(counts);
    AtMost(n, |counts|, counts[k], s, Count(Schedule(counts, n, s), k));
  }

  lemma Monotone(n: int, a: int, b: int)
    requires n >= 0 && a <= b
    ensures n * a <= n * b
  {
  }

  lemma AtMost(n: int, m: int, c: int, s: int, p: int)
    requires Close(n, m, c, s, p) && s <= n && c >= 0 && n >= 1
    ensures p <= c
  {
    Monotone(c, s, n);
    Distribute(c, 1, n);
    if p >= c + 1 {
      Monotone(n, c + 1, p);
    }
  }

  function Tally(picks: seq<nat>, m: nat): seq<int> {
    seq(m, k requires 0 <= k < m => Count(picks, k))
  }

  lemma {:induction false} TallySum(picks: seq<nat>, m: nat)
    requires forall i :: 0 <= i < |picks| ==> picks[i] < m
    ensures Sum(Tally(picks, m)) == |picks|
  {
    if |picks| == 0 {
      SumZero(Tally(picks, m));
    } else {
      var init, last := picks[..|picks| - 1], picks[|picks| - 1];
      TallySum(init, m);
      SumBump(Tally(init, m), Tally(picks, m), last);
    }
  }

  lemma {:induction false} SumZero(s: seq<int>)
    requires forall i :: 0 <= i < |s| ==> s[i] == 0
    ensures Sum(s) == 0
  {
    if |s| > 0 {
      SumZero(s[..|s| - 1]);
    }
  }

  lemma {:induction false} SumBump(a: seq<int>, b: seq<int>, at: nat)
    requires |a| == |b| && at < |a|
    requires forall i :: 0 <= i < |a| ==> b[i] == a[i] + if i == at then 1 else 0
    ensures Sum(b) == Sum(a) + 1
  {
    var last := |a| - 1;
    if at == last {
      assert a[..last] == b[..last];
    } else {
      SumBump(a[..last], b[..last], at);
    }
  }

  lemma {:induction false} SumSqueeze(a: seq<int>, b: seq<int>)
    requires |a| == |b| && Sum(a) >= Sum(b) && forall i :: 0 <= i < |a| ==> a[i] <= b[i]
    ensures a == b
  {
    if |a| > 0 {
      var last := |a| - 1;
      SumLess(a[..last], b[..last]);
      SumSqueeze(a[..last], b[..last]);
      assert a == a[..last] + [a[last]] && b == b[..last] + [b[last]];
    }
  }

  lemma {:induction false} SumLess(a: seq<int>, b: seq<int>)
    requires |a| == |b| && forall i :: 0 <= i < |a| ==> a[i] <= b[i]
    ensures Sum(a) <= Sum(b)
  {
    if |a| > 0 {
      SumLess(a[..|a| - 1], b[..|b| - 1]);
    }
  }

  /** After `n` picks every class has been picked exactly as often as it has members. */
  lemma AllPicked(counts: seq<int>, n: nat, k: nat)
    requires Classes(counts, n) && k < |counts|
    ensures Count(Schedule(counts, n, n), k) == counts[k]
  {
    AllSane(counts, n, n);
    var picks := Schedule(counts, n, n);
    var tally := Tally(picks, |counts|);
    TallySum(picks, |counts|);
    forall i | 0 <= i < |counts|
      ensures tally[i] <= counts[i]
    {
      NoWrap(counts, n, n, i);
    }
    SumSqueeze(tally, counts);
    assert tally[k] == counts[k];
  }
}
