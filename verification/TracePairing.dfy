/** Pairing the steps of two traces by agent path, as two pieces of code do it. */
module TracePairing {
  import opened Options
  import opened Selections

  datatype Step = Step(path: string, hashPrompt: string, hashInput: string, latency: real, error: Option<string>)

  datatype Pair = Pair(prev: Option<Step>, next: Option<Step>)

  // ---- What the pairing is ----------------------------------------------------------------

  function OnPath(steps: seq<Step>, path: string): seq<Step> {
    if |steps| == 0 then []
    else
      var init, last := OnPath(steps[..|steps| - 1], path), steps[|steps| - 1];
      if last.path == path then init + [last] else init
  }

  function Nth(steps: seq<Step>, i: nat): Option<Step> {
    if i < |steps| then Some(steps[i]) else None
  }

  /** The k-th steps side by side; the longer list's rest stands alone. */
  function Zip(a: seq<Step>, b: seq<Step>): (z: seq<Pair>)
    ensures |z| == if |a| < |b| then |b| else |a|
  {
    seq(if |a| < |b| then |b| else |a|, i requires 0 <= i => Pair(Nth(a, i), Nth(b, i)))
  }

  function Paths(steps: seq<Step>): seq<string> {
    seq(|steps|, i requires 0 <= i < |steps| => steps[i].path)
  }

  /** The first occurrence of every path, in order. */
  function Firsts(paths: seq<string>): seq<string> {
    if |paths| == 0 then []
    else
      var init, last := Firsts(paths[..|paths| - 1]), paths[|paths| - 1];
      if last in init then init else init + [last]
  }

  /** Paths of the new trace in order of appearance, then those of the old one only. */
  function Order(prev: seq<Step>, next: seq<Step>): seq<string> {
    Firsts(Paths(next) + Paths(prev))
  }

  function PairsOf(prev: seq<Step>, next: seq<Step>, paths: seq<string>): seq<Pair> {
    if |paths| == 0 then []
    else
      PairsOf(prev, next, paths[..|paths| - 1]) +
      Zip(OnPath(prev, paths[|paths| - 1]), OnPath(next, paths[|paths| - 1]))
  }

  function Pairs(prev: seq<Step>, next: seq<Step>): seq<Pair> {
    PairsOf(prev, next, Order(prev, next))
  }

  // ---- The two implementations ------------------------------------------------------------

  method GroupByPath(steps: seq<Step>) returns (groups: map<string, seq<Step>>)
    ensures forall p :: (if p in groups then groups[p] else []) == OnPath(steps, p)
  {
    groups := map[];
    for i := 0 to |steps|
      invariant forall p :: (if p in groups then groups[p] else []) == OnPath(steps[..i], p)
    {
      assert steps[..i + 1][..i] == steps[..i];
      var s := steps[i];
      groups := groups[s.path := (if s.path in groups then groups[s.path] else []) + [s]];
    }
    assert steps[..|steps|] == steps;
  }

  /** One of the two ordering loops: paths not seen yet are appended. */
  method AppendNew(steps: seq<Step>, ordered: seq<string>, seen: set<string>, ghost before: seq<string>)
    returns (ordered': seq<string>, seen': set<string>)
    requires ordered == Firsts(before) && forall p :: p in seen <==> p in ordered
    ensures ordered' == Firsts(before + Paths(steps)) && forall p :: p in seen' <==> p in ordered'
  {
    ordered', seen' := ordered, seen;
    assert before + Paths(steps)[..0] == before;
    for i := 0 to |steps|
      invariant ordered' == Firsts(before + Paths(steps)[..i]) && forall p :: p in seen' <==> p in ordered'
    {
      var more := before + Paths(steps)[..i + 1];
      assert more[..|more| - 1] == before + Paths(steps)[..i] && more[|more| - 1] == steps[i].path;
      if steps[i].path !in seen' {
        ordered', seen' := ordered' + [steps[i].path], seen' + {steps[i].path};
      }
    }
    assert Paths(steps)[..|steps|] == Paths(steps);
  }

  method PathsInOrder(prev: seq<Step>, next: seq<Step>) returns (ordered: seq<string>)
    ensures ordered == Order(prev, next)
  {
    var seen: set<string>;
    ordered, seen := AppendNew(next, [], {}, []);
    assert [] + Paths(next) == Paths(next);
    ordered, seen := AppendNew(prev, ordered, seen, Paths(next));
  }

  lemma OneMorePath(prev: seq<Step>, next: seq<Step>, paths: seq<string>, i: nat)
    requires i < |paths|
    ensures PairsOf(prev, next, paths[..i + 1]) ==
            PairsOf(prev, next, paths[..i]) + Zip(OnPath(prev, paths[i]), OnPath(next, paths[i]))
  {
    assert paths[..i + 1][..i] == paths[..i];
  }

  method AppendPairs(pairs: seq<Pair>, a: seq<Step>, b: seq<Step>) returns (pairs': seq<Pair>)
    ensures pairs' == pairs + Zip(a, b)
  {
    pairs' := pairs;
    var n := if |a| < |b| then |b| else |a|;
    for j := 0 to n
      invariant pairs' == pairs + Zip(a, b)[..j]
    {
      var pa := if j < |a| then Some(a[j]) else None;
      var pb := if j < |b| then Some(b[j]) else None;
      pairs' := pairs' + [Pair(pa, pb)];
    }
    assert Zip(a, b)[..n] == Zip(a, b);
  }

  /** `regression._match_steps`. */
  method MatchSteps(prev: seq<Step>, next: seq<Step>) returns (pairs: seq<Pair>)
    ensures pairs == Pairs(prev, next)
  {
    var prevByPath := GroupByPath(prev);
    var nextByPath := GroupByPath(next);
    var ordered := PathsInOrder(prev, next);
    pairs := [];
    for i := 0 to |ordered|
      invariant pairs == PairsOf(prev, next, ordered[..i])
    {
      OneMorePath(prev, next, ordered, i);
      var a := if ordered[i] in prevByPath then prevByPath[ordered[i]] else [];
      var b := if ordered[i] in nextByPath then nextByPath[ordered[i]] else [];
      pairs := AppendPairs(pairs, a, b);
    }
    assert ordered[..|ordered|] == ordered;
  }

  // ---- Deltas ---------------------------------------------------------------------------------

  datatype Status = Unchanged | Changed | Added | Removed

  datatype Reason = ErrorDiffers | PromptDiffers | InputDiffers | Latency(change: real)

  datatype Delta = Delta(path: string, status: Status, reasons: seq<Reason>)

  predicate Failed(e: Option<string>) {
    e.Some? && e.value != ""
  }

  function Distance(x: real, y: real): real {
    if x < y then y - x else x - y
  }

  function ContentReasons(a: Step, b: Step): seq<Reason> {
    if Failed(a.error) || Failed(b.error) then (if a.error != b.error then [ErrorDiffers] else [])
    else
      (if a.hashPrompt != b.hashPrompt then [PromptDiffers] else []) +
      (if a.hashInput != b.hashInput then [InputDiffers] else [])
  }

  function Reasons(a: Step, b: Step, tolerance: real): seq<Reason> {
    ContentReasons(a, b) +
    (if Distance(b.latency, a.latency) > tolerance then [Latency(b.latency - a.latency)] else [])
  }

  /** `_pair_delta`; a pair always has a side. */
  function PairDelta(path: string, p: Pair, tolerance: real): Delta {
    match p
    case Pair(Some(a), Some(b)) =>
      var reasons := Reasons(a, b, tolerance);
      Delta(path, if reasons != [] then Changed else Unchanged, reasons)
    case Pair(None, _) => Delta(path, Added, [])
    case Pair(_, None) => Delta(path, Removed, [])
  }

  /** Neither side failed and both were asked the same, or both failed in the same way. */
  predicate SameContent(a: Step, b: Step) {
    if (a.error.Some? && a.error.value != "") || (b.error.Some? && b.error.value != "") then a.error == b.error
    else a.hashPrompt == b.hashPrompt && a.hashInput == b.hashInput
  }

  predicate Within(x: real, y: real, tolerance: real) {
    -tolerance <= x - y <= tolerance
  }

  /** WHAT A DELTA SAYS: whether a side is missing, and else whether anything differs. */
  lemma StatusIff(path: string, p: Pair, tolerance: real)
    requires p.prev.Some? || p.next.Some?
    ensures var d := PairDelta(path, p, tolerance);
      && d.path == path
      && (d.status == Added <==> p.prev.None?)
      && (d.status == Removed <==> p.next.None?)
      && (p.prev.Some? && p.next.Some? ==>
            (d.status == Unchanged <==>
               SameContent(p.prev.value, p.next.value) &&
               Within(p.next.value.latency, p.prev.value.latency, tolerance)))
  {
  }

  /** THE REASONS are exactly what differs: the error if a side failed, else prompt and input, and the
      latency beyond the tolerance; each at most once. */
  lemma ReasonsIff(path: string, a: Step, b: Step, tolerance: real)
    ensures var rs := PairDelta(path, Pair(Some(a), Some(b)), tolerance).reasons;
      var failed := (a.error.Some? && a.error.value != "") || (b.error.Some? && b.error.value != "");
      && (ErrorDiffers in rs <==> failed && a.error != b.error)
      && (PromptDiffers in rs <==> !failed && a.hashPrompt != b.hashPrompt)
      && (InputDiffers in rs <==> !failed && a.hashInput != b.hashInput)
      && (forall change :: Latency(change) in rs <==>
            change == b.latency - a.latency && !Within(b.latency, a.latency, tolerance))
      && forall i, j :: 0 <= i < j < |rs| ==> rs[i] != rs[j]
  {
  }

  function PathOf(p: Pair): string {
    if p.prev.Some? then p.prev.value.path else if p.next.Some? then p.next.value.path else ""
  }

  function Deltas(pairs: seq<Pair>, tolerance: real): (ds: seq<Delta>)
    ensures |ds| == |pairs|
    ensures forall i :: 0 <= i < |pairs| ==> ds[i] == PairDelta(PathOf(pairs[i]), pairs[i], tolerance)
  {
    seq(|pairs|, i requires 0 <= i < |pairs| => PairDelta(PathOf(pairs[i]), pairs[i], tolerance))
  }

  lemma DeltasConcat(a: seq<Pair>, b: seq<Pair>, tolerance: real)
    ensures Deltas(a + b, tolerance) == Deltas(a, tolerance) + Deltas(b, tolerance)
  {
  }

  method AppendDeltas(deltas: seq<Delta>, path: string, a: seq<Step>, b: seq<Step>, tolerance: real)
    returns (deltas': seq<Delta>)
    requires forall i :: 0 <= i < |a| ==> a[i].path == path
    requires forall i :: 0 <= i < |b| ==> b[i].path == path
    ensures deltas' == deltas + Deltas(Zip(a, b), tolerance)
  {
    deltas' := deltas;
    var n := if |a| < |b| then |b| else |a|;
    for j := 0 to n
      invariant deltas' == deltas + Deltas(Zip(a, b)[..j], tolerance)
    {
      var pa := if j < |a| then Some(a[j]) else None;
      var pb := if j < |b| then Some(b[j]) else None;
      assert Zip(a, b)[..j + 1] == Zip(a, b)[..j] + [Pair(pa, pb)];
      deltas' := deltas' + [PairDelta(path, Pair(pa, pb), tolerance)];
    }
    assert Zip(a, b)[..n] == Zip(a, b);
  }

  /** `trace_diff`: the deltas are those of the regression check's pairs, in the same order. */
  method TraceDiff(prev: seq<Step>, next: seq<Step>, tolerance: real) returns (deltas: seq<Delta>)
    ensures deltas == Deltas(Pairs(prev, next), tolerance)
  {
    var prevByPath := GroupByPath(prev);
    var nextByPath := GroupByPath(next);
    var ordered := PathsInOrder(prev, next);
    deltas := [];
    for i := 0 to |ordered|
      invariant deltas == Deltas(PairsOf(prev, next, ordered[..i]), tolerance)
    {
      OneMorePath(prev, next, ordered, i);
      var path := ordered[i];
      var a := if path in prevByPath then prevByPath[path] else [];
      var b := if path in nextByPath then nextByPath[path] else [];
      OnPathOnly(prev, path);
      OnPathOnly(next, path);
      DeltasConcat(PairsOf(prev, next, ordered[..i]), Zip(a, b), tolerance);
      deltas := AppendDeltas(deltas, path, a, b, tolerance);
    }
    assert ordered[..|ordered|] == ordered;
  }

  lemma {:induction false} OnPathOnly(steps: seq<Step>, path: string)
    ensures forall i :: 0 <= i < |OnPath(steps, path)| ==> OnPath(steps, path)[i].path == path
  {
    if |steps| > 0 {
      OnPathOnly(steps[..|steps| - 1], path);
    }
  }

  /** THE STEPS OF A PATH are those of the trace on it, every one, in the trace's order. */
  lemma {:induction false} OnPathIsSelection(steps: seq<Step>, path: string) returns (js: seq<nat>)
    ensures Ascending(js, |steps|) && |js| == |OnPath(steps, path)|
    ensures forall k :: 0 <= k < |js| ==> js[k] < |steps| && OnPath(steps, path)[k] == steps[js[k]]
    ensures forall i :: 0 <= i < |steps| ==> (steps[i].path == path <==> i in js)
  {
    if |steps| == 0 {
      js := [];
    } else {
      var n := |steps| - 1;
      js := OnPathIsSelection(steps[..n], path);
      AscendingGrows(js, n);
      if steps[n].path == path {
        js := js + [n];
      }
    }
  }

  // ---- Exact accounting --------------------------------------------------------------------------

  function PairsOnPath(pairs: seq<Pair>, path: string): seq<Pair> {
    if |pairs| == 0 then []
    else
      var init, last := PairsOnPath(pairs[..|pairs| - 1], path), pairs[|pairs| - 1];
      if PathOf(last) == path then init + [last] else init
  }

  lemma {:induction false} PairsOnPathConcat(a: seq<Pair>, b: seq<Pair>, path: string)
    ensures PairsOnPath(a + b, path) == PairsOnPath(a, path) + PairsOnPath(b, path)
  {
    if |b| == 0 {
      assert a + b == a;
    } else {
      assert (a + b)[..|a + b| - 1] == a + b[..|b| - 1];
      PairsOnPathConcat(a, b[..|b| - 1], path);
    }
  }

  lemma {:induction false} AllOrNothing(pairs: seq<Pair>, here: string, path: string)
    requires forall i :: 0 <= i < |pairs| ==> PathOf(pairs[i]) == here
    ensures PairsOnPath(pairs, path) == if here == path then pairs else []
  {
    if |pairs| > 0 {
      AllOrNothing(pairs[..|pairs| - 1], here, path);
    }
  }

  lemma ZipOnPath(prev: seq<Step>, next: seq<Step>, here: string, path: string)
    ensures var z := Zip(OnPath(prev, here), OnPath(next, here));
            PairsOnPath(z, path) == if here == path then z else []
  {
    OnPathOnly(prev, here);
    OnPathOnly(next, here);
    AllOrNothing(Zip(OnPath(prev, here), OnPath(next, here)), here, path);
  }

  lemma {:induction false} FirstsAreSet(paths: seq<string>)
    ensures forall p :: p in Firsts(paths) <==> p in paths
    ensures forall i, j :: 0 <= i < j < |Firsts(paths)| ==> Firsts(paths)[i] != Firsts(paths)[j]
  {
    if |paths| > 0 {
      FirstsAreSet(paths[..|paths| - 1]);
      assert forall p :: p in paths <==> p in paths[..|paths| - 1] || p == paths[|paths| - 1];
    }
  }

  lemma {:induction false} NotListed(prev: seq<Step>, next: seq<Step>, paths: seq<string>, path: string)
    requires path !in paths
    ensures PairsOnPath(PairsOf(prev, next, paths), path) == []
  {
    if |paths| > 0 {
      var init, last := paths[..|paths| - 1], paths[|paths| - 1];
      NotListed(prev, next, init, path);
      PairsOnPathConcat(PairsOf(prev, next, init), Zip(OnPath(prev, last), OnPath(next, last)), path);
      ZipOnPath(prev, next, last, path);
    }
  }

  lemma {:induction false} ListedOnce(prev: seq<Step>, next: seq<Step>, paths: seq<string>, path: string)
    requires path in paths && forall i, j :: 0 <= i < j < |paths| ==> paths[i] != paths[j]
    ensures PairsOnPath(PairsOf(prev, next, paths), path) == Zip(OnPath(prev, path), OnPath(next, path))
  {
    var init, last := paths[..|paths| - 1], paths[|paths| - 1];
    PairsOnPathConcat(PairsOf(prev, next, init), Zip(OnPath(prev, last), OnPath(next, last)), path);
    ZipOnPath(prev, next, last, path);
    if last == path {
      NotListed(prev, next, init, path);
    } else {
      ListedOnce(prev, next, init, path);
    }
  }

  lemma {:induction false} NowhereOnPath(steps: seq<Step>, path: string)
    requires path !in Paths(steps)
    ensures OnPath(steps, path) == []
  {
    if |steps| > 0 {
      assert Paths(steps)[|steps| - 1] == steps[|steps| - 1].path;
      assert forall p :: p in Paths(steps[..|steps| - 1]) ==> p in Paths(steps) by {
        assert Paths(steps[..|steps| - 1]) == Paths(steps)[..|steps| - 1];
      }
      NowhereOnPath(steps[..|steps| - 1], path);
    }
  }

  /** EXACT ACCOUNTING. On every path the pairs are the k-th old step with the k-th new step, each
      step of either trace once and in its order. */
  lemma PairsOnEveryPath(prev: seq<Step>, next: seq<Step>, path: string)
    ensures PairsOnPath(Pairs(prev, next), path) == Zip(OnPath(prev, path), OnPath(next, path))
  {
    var all := Paths(next) + Paths(prev);
    FirstsAreSet(all);
    if path in all {
      ListedOnce(prev, next, Order(prev, next), path);
    } else {
      NotListed(prev, next, Order(prev, next), path);
      NowhereOnPath(prev, path);
      NowhereOnPath(next, path);
    }
  }

  function Swapped(pairs: seq<Pair>): seq<Pair> {
    seq(|pairs|, i requires 0 <= i < |pairs| => Pair(pairs[i].next, pairs[i].prev))
  }

  /** Comparing the other way round swaps the sides of the pairs of every path. */
  lemma SwapMirrors(prev: seq<Step>, next: seq<Step>, path: string)
    ensures PairsOnPath(Pairs(next, prev), path) == Swapped(PairsOnPath(Pairs(prev, next), path))
  {
    PairsOnEveryPath(prev, next, path);
    PairsOnEveryPath(next, prev, path);
  }

  // ---- Each step in exactly one pair ------------------------------------------------------------

  /** The old sides of the pairs, in order. */
  function Olds(pairs: seq<Pair>): seq<Step> {
    if |pairs| == 0 then []
    else
      Olds(pairs[..|pairs| - 1]) + (if pairs[|pairs| - 1].prev.Some? then [pairs[|pairs| - 1].prev.value] else [])
  }

  function News(pairs: seq<Pair>): seq<Step> {
    Olds(Swapped(pairs))
  }

  lemma {:induction false} OldsConcat(a: seq<Pair>, b: seq<Pair>)
    ensures Olds(a + b) == Olds(a) + Olds(b)
  {
    if |b| == 0 {
      assert a + b == a;
    } else {
      assert (a + b)[..|a + b| - 1] == a + b[..|b| - 1];
      OldsConcat(a, b[..|b| - 1]);
    }
  }

  lemma {:induction false} OldsOfZip(a: seq<Step>, b: seq<Step>, n: nat)
    requires n <= |Zip(a, b)|
    ensures Olds(Zip(a, b)[..n]) == a[..if n < |a| then n else |a|]
  {
    if n > 0 {
      var z := Zip(a, b);
      assert z[..n][..n - 1] == z[..n - 1] && z[..n][n - 1] == z[n - 1] == Pair(Nth(a, n - 1), Nth(b, n - 1));
      OldsOfZip(a, b, n - 1);
    }
  }

  /** The old steps on the listed paths. */
  function Collected(steps: seq<Step>, paths: seq<string>): multiset<Step> {
    if |paths| == 0 then multiset{}
    else Collected(steps, paths[..|paths| - 1]) + multiset(OnPath(steps, paths[|paths| - 1]))
  }

  lemma {:induction false} OldsArePerPath(prev: seq<Step>, next: seq<Step>, paths: seq<string>)
    ensures multiset(Olds(PairsOf(prev, next, paths))) == Collected(prev, paths)
  {
    if |paths| > 0 {
      var init, last := paths[..|paths| - 1], paths[|paths| - 1];
      var a, b := OnPath(prev, last), OnPath(next, last);
      OldsArePerPath(prev, next, init);
      OldsConcat(PairsOf(prev, next, init), Zip(a, b));
      OldsOfZip(a, b, |Zip(a, b)|);
      assert Zip(a, b)[..|Zip(a, b)|] == Zip(a, b) && a[..|a|] == a;
    }
  }

  lemma {:induction false} CollectedStep(steps: seq<Step>, paths: seq<string>, last: Step)
    requires forall i, j :: 0 <= i < j < |paths| ==> paths[i] != paths[j]
    ensures Collected(steps + [last], paths) ==
            Collected(steps, paths) + (if last.path in paths then multiset{last} else multiset{})
  {
    if |paths| > 0 {
      var init, path := paths[..|paths| - 1], paths[|paths| - 1];
      CollectedStep(steps, init, last);
      assert (steps + [last])[..|steps|] == steps;
      assert last.path in paths <==> last.path in init || last.path == path;
    }
  }

  lemma {:induction false} CollectedAll(steps: seq<Step>, paths: seq<string>)
    requires forall i, j :: 0 <= i < j < |paths| ==> paths[i] != paths[j]
    requires forall i :: 0 <= i < |steps| ==> steps[i].path in paths
    ensures Collected(steps, paths) == multiset(steps)
  {
    if |steps| == 0 {
      CollectedNone(paths);
    } else {
      var init, last := steps[..|steps| - 1], steps[|steps| - 1];
      assert steps == init + [last];
      CollectedAll(init, paths);
      CollectedStep(init, paths, last);
    }
  }

  lemma {:induction false} CollectedNone(paths: seq<string>)
    ensures Collected([], paths) == multiset{}
  {
    if |paths| > 0 {
      CollectedNone(paths[..|paths| - 1]);
    }
  }

  lemma {:induction false} NewsArePerPath(prev: seq<Step>, next: seq<Step>, paths: seq<string>)
    ensures multiset(News(PairsOf(prev, next, paths))) == Collected(next, paths)
  {
    SwappedPairs(prev, next, paths);
    OldsArePerPath(next, prev, paths);
  }

  lemma {:induction false} SwappedPairs(prev: seq<Step>, next: seq<Step>, paths: seq<string>)
    ensures Swapped(PairsOf(prev, next, paths)) == PairsOf(next, prev, paths)
  {
    if |paths| > 0 {
      var init, last := paths[..|paths| - 1], paths[|paths| - 1];
      SwappedPairs(prev, next, init);
      assert Swapped(PairsOf(prev, next, paths)) ==
             Swapped(PairsOf(prev, next, init)) + Swapped(Zip(OnPath(prev, last), OnPath(next, last)));
      assert Swapped(Zip(OnPath(prev, last), OnPath(next, last))) == Zip(OnPath(next, last), OnPath(prev, last));
    }
  }

  /** NOTHING LOST, NOTHING TWICE. The old sides of all pairs are the old trace's steps, and the new
      sides the new trace's. */
  lemma EachStepOnce(prev: seq<Step>, next: seq<Step>)
    ensures multiset(Olds(Pairs(prev, next))) == multiset(prev)
    ensures multiset(News(Pairs(prev, next))) == multiset(next)
  {
    var all := Paths(next) + Paths(prev);
    var order := Order(prev, next);
    FirstsAreSet(all);
    forall i | 0 <= i < |prev|
      ensures prev[i].path in order
    {
      assert all[|next| + i] == prev[i].path;
    }
    forall i | 0 <= i < |next|
      ensures next[i].path in order
    {
      assert all[i] == next[i].path;
    }
    OldsArePerPath(prev, next, order);
    NewsArePerPath(prev, next, order);
    CollectedAll(prev, order);
    CollectedAll(next, order);
  }

  // ---- A trace compared with itself --------------------------------------------------------------

  lemma {:induction false} SelfPairs(t: seq<Step>, paths: seq<string>)
    ensures forall i :: 0 <= i < |PairsOf(t, t, paths)| ==>
      PairsOf(t, t, paths)[i].prev.Some? && PairsOf(t, t, paths)[i].prev == PairsOf(t, t, paths)[i].next
  {
    if |paths| > 0 {
      SelfPairs(t, paths[..|paths| - 1]);
    }
  }

  lemma {:induction false} OldsNonEmpty(pairs: seq<Pair>)
    requires |pairs| > 0 && pairs[0].prev.Some?
    ensures |Olds(pairs)| > 0
  {
    if |pairs| > 1 {
      OldsNonEmpty(pairs[..|pairs| - 1]);
    }
  }

  lemma SameSize(a: seq<Step>, b: seq<Step>)
    requires multiset(a) == multiset(b)
    ensures |a| == |b|
  {
    assert |multiset(a)| == |a| && |multiset(b)| == |b|;
  }

  lemma SelfPairsExist(t: seq<Step>)
    ensures |Pairs(t, t)| > 0 <==> |t| > 0
  {
    EachStepOnce(t, t);
    SameSize(Olds(Pairs(t, t)), t);
    SelfPairs(t, Order(t, t));
    if |Pairs(t, t)| > 0 {
      OldsNonEmpty(Pairs(t, t));
    }
  }

  /** A trace differs from itself in no step exactly when the tolerance is not negative or there is no
      step: the comparison is `>`, so a negative tolerance reports a latency change of zero. */
  lemma SelfDiffUnchangedIff(t: seq<Step>, tolerance: real)
    ensures var ds := Deltas(Pairs(t, t), tolerance);
            (forall i :: 0 <= i < |ds| ==> ds[i].status == Unchanged) <==> tolerance >= 0.0 || |t| == 0
  {
    var pairs := Pairs(t, t);
    var ds := Deltas(pairs, tolerance);
    SelfPairs(t, Order(t, t));
    SelfPairsExist(t);
    forall i | 0 <= i < |ds|
      ensures ds[i].status == Unchanged <==> tolerance >= 0.0
    {
      assert pairs[i].prev == pairs[i].next && pairs[i].prev.Some?;
    }
    if |t| > 0 {
      assert ds[0].status == Unchanged <==> tolerance >= 0.0;
    }
  }
}
