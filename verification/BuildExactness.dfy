/** The exact condition under which an accepted build is sound: a router that could pass on a value
    it does not declare is always reachable, because leaves and `combine` functions may answer with
    any key. */
module BuildExactness {
  import opened Options
  import opened Architectures
  import opened BuildSoundness

  /** What `branch_input` functions answer is an instance of the chosen branch's input. */
  ghost predicate AdaptsWell(h: Hierarchy, o: Oracle) {
    forall k: nat, a: Agent, x: Value, y: Value, i: nat :: a.Composite? && i < |a.children| ==>
      h(o.adapt(k, a, x, y, i).cls, a.children[i].agent.input)
  }

  // ---- Plans: the keys answered by the leaves and combines of a run -----------

  function First(a: Agent): Class {
    if a.Leaf? then a.output
    else if a.kind.Fan? then a.kind.combined
    else if |a.children| == 0 then 0
    else if a.kind.Route? then (if |a.children| > 1 then First(a.children[1].agent) else 0)
    else First(a.children[|a.children| - 1].agent)
  }

  lemma {:induction false} FirstYields(a: Agent)
    requires WellFormed(a)
    ensures First(a) in Yields(a)
    decreases a
  {
    if a.Composite? {
      match a.kind {
        case Sequence => FirstYields(a.children[|a.children| - 1].agent);
        case LoopOf(_) => FirstYields(a.children[|a.children| - 1].agent);
        case Fan(_) =>
        case Route(_) =>
          FirstYields(a.children[1].agent);
          BranchYieldsHas(a, 1, 1);
      }
    }
  }

  /** The first branch that can yield `y`. */
  ghost function BranchFor(a: Agent, y: Class, i: nat): (j: nat)
    requires a.Composite? && 1 <= i && 1 <= |a.children| && y in BranchYields(a, i)
    ensures i <= j < |a.children| && y in Yields(a.children[j].agent)
    decreases |a.children| - i
  {
    if y in Yields(a.children[i].agent) then i else BranchFor(a, y, i + 1)
  }

  /** Answers that make `a` return an instance of exactly `y` carrying `key`. */
  ghost function Plan(a: Agent, y: Class, key: Key): seq<Key>
    requires WellFormed(a) && y in Yields(a)
    decreases a, 2
  {
    if a.Leaf? then [key]
    else
      match a.kind
      case Sequence => StagesPlan(a, 0, y, key)
      case LoopOf(n) => Repeat(StagesPlan(a, 0, y, key), n)
      case Fan(_) => PrefixPlan(a, 0, |a.children|) + [key]
      case Route(_) =>
        var j := BranchFor(a, y, 1);
        FirstYields(a.children[0].agent);
        Plan(a.children[0].agent, First(a.children[0].agent), a.children[j].key) + Plan(a.children[j].agent, y, key)
  }

  /** Children `i .. c` answer anything. */
  ghost function PrefixPlan(a: Agent, i: nat, c: nat): seq<Key>
    requires a.Composite? && WellFormed(a) && i <= c <= |a.children|
    decreases a, 1, c - i
  {
    if i == c then []
    else
      FirstYields(a.children[i].agent);
      Plan(a.children[i].agent, First(a.children[i].agent), 0) + PrefixPlan(a, i + 1, c)
  }

  ghost function StagesPlan(a: Agent, i: nat, y: Class, key: Key): seq<Key>
    requires a.Composite? && WellFormed(a) && i < |a.children|
    requires y in Yields(a.children[|a.children| - 1].agent)
    decreases a, 1, |a.children| - i
  {
    if i == |a.children| - 1 then Plan(a.children[i].agent, y, key)
    else
      FirstYields(a.children[i].agent);
      Plan(a.children[i].agent, First(a.children[i].agent), 0) + StagesPlan(a, i + 1, y, key)
  }

  function Repeat(s: seq<Key>, n: nat): seq<Key> {
    if n == 0 then [] else s + Repeat(s, n - 1)
  }

  /** From its k-th consultation on the oracle answers with the keys of `plan`. */
  ghost predicate Follows(o: Oracle, k: nat, plan: seq<Key>) {
    && (forall i: nat, a: Agent, x: Value :: k <= i < k + |plan| && a.Leaf? ==>
          o.leaf(i, a, x) == Answer(Value(a.output, plan[i - k], 0)))
    && (forall i: nat, a: Agent, xs: seq<Value> :: k <= i < k + |plan| && a.Composite? && a.kind.Fan? ==>
          o.combine(i, a, xs) == Answer(Value(a.kind.combined, plan[i - k], 0)))
  }

  lemma FollowsSplit(o: Oracle, k: nat, p: seq<Key>, q: seq<Key>)
    requires Follows(o, k, p + q)
    ensures Follows(o, k, p) && Follows(o, k + |p|, q)
  {
    forall i: nat, a: Agent, x: Value | k + |p| <= i < k + |p| + |q| && a.Leaf?
      ensures o.leaf(i, a, x) == Answer(Value(a.output, q[i - (k + |p|)], 0))
    {
      assert (p + q)[i - k] == q[i - (k + |p|)];
    }
    forall i: nat, a: Agent, xs: seq<Value> | k + |p| <= i < k + |p| + |q| && a.Composite? && a.kind.Fan?
      ensures o.combine(i, a, xs) == Answer(Value(a.kind.combined, q[i - (k + |p|)], 0))
    {
      assert (p + q)[i - k] == q[i - (k + |p|)];
    }
  }

  ghost predicate Returns(r: Run, y: Class, key: Key, clock: nat) {
    r.outcome.Ok? && r.outcome.value.cls == y && r.outcome.value.key == key && r.clock == clock
  }

  /** In an accepted tree whose routers deliver, everything an agent yields conforms to its output. */
  lemma {:induction false} YieldsFit(h: Hierarchy, a: Agent, tx: Class)
    requires Preorder(h) && WellFormed(a) && Delivers(h, a) && Record(h, a, tx).Traced?
    ensures forall y :: y in Yields(a) ==> h(y, a.output)
    decreases a
  {
    if a.Composite? && !a.kind.Route? && !a.kind.Fan? {
      var last := |a.children| - 1;
      var ti := ChildTraced(h, a, last);
      YieldsFit(h, a.children[last].agent, ti);
      match a.kind {
        case Sequence => StagesOut(h, a, 0, a.input);
        case LoopOf(n) => LoopOut(h, a, n, a.input);
      }
    } else if a.Composite? && a.kind.Fan? {
      AllTraceOut(h, a, 0, a.kind.combined);
    }
  }

  lemma {:induction false} PlanWorks(h: Hierarchy, o: Oracle, k: nat, a: Agent, path: string, x: Value, tx: Class,
                                     y: Class, key: Key)
    requires Preorder(h) && WellFormed(a) && Delivers(h, a) && AdaptsWell(h, o)
    requires Record(h, a, tx).Traced? && h(x.cls, tx) && y in Yields(a) && Follows(o, k, Plan(a, y, key))
    ensures Returns(Invoke(h, o, k, a, path, x), y, key, k + |Plan(a, y, key)|)
    decreases a, 3
  {
    YieldsFit(h, a, tx);
    if a.Leaf? {
      assert o.leaf(k, a, x) == Answer(Value(a.output, Plan(a, y, key)[0], 0));
    } else {
      match a.kind {
        case Sequence => StagesWork(h, o, k, a, path, 0, x, a.input, y, key);
        case LoopOf(n) => PassesWork(h, o, k, a, path, n, x, a.input, y, key);
        case Fan(combined) => FanWorks(h, o, k, a, path, x, key);
        case Route(_) => RouteWorks(h, o, k, a, path, x, y, key);
      }
    }
  }

  /** What branch `i` receives after the selector's run `r`. */
  function Handed(o: Oracle, a: Agent, x: Value, r: Run, i: nat): Value
    requires a.Composite? && a.kind.Route? && r.outcome.Ok?
  {
    if a.kind.adapted then o.adapt(r.clock, a, x, r.outcome.value, i) else x
  }

  /** The plan of a router: the selector answers with a branch's key, and that branch yields `y`. */
  lemma RoutePlan(o: Oracle, k: nat, a: Agent, y: Class, key: Key) returns (j: nat, pick: seq<Key>)
    requires WellFormed(a) && a.Composite? && a.kind.Route? && y in Yields(a) && Follows(o, k, Plan(a, y, key))
    ensures 1 <= j < |a.children| && y in Yields(a.children[j].agent)
    ensures First(a.children[0].agent) in Yields(a.children[0].agent)
    ensures pick == Plan(a.children[0].agent, First(a.children[0].agent), a.children[j].key) && Follows(o, k, pick)
    ensures Follows(o, k + |pick|, Plan(a.children[j].agent, y, key))
    ensures |Plan(a, y, key)| == |pick| + |Plan(a.children[j].agent, y, key)|
  {
    hide Follows;
    j := BranchFor(a, y, 1);
    FirstYields(a.children[0].agent);
    pick := Plan(a.children[0].agent, First(a.children[0].agent), a.children[j].key);
    FollowsSplit(o, k, pick, Plan(a.children[j].agent, y, key));
  }

  lemma {:induction false} RouteWorks(h: Hierarchy, o: Oracle, k: nat, a: Agent, path: string, x: Value, y: Class,
                                      key: Key)
    requires Preorder(h) && WellFormed(a) && Delivers(h, a) && AdaptsWell(h, o) && a.Composite? && a.kind.Route?
    requires ForwardTrace(h, a).Traced? && h(x.cls, a.input) && y in Yields(a) && Follows(o, k, Plan(a, y, key))
    ensures Returns(Forward(h, o, k, a, path, x), y, key, k + |Plan(a, y, key)|)
    decreases a, 2
  {
    hide First, Plan, Yields, Follows;
    var j, pick := RoutePlan(o, k, a, y, key);
    var out := a.children[1].agent.output;
    AllTraceChild(h, a, 0, out, 0);
    AllTraceChild(h, a, 0, out, j);
    PlanWorks(h, o, k, a.children[0].agent, PathOf(a, path, 0), x, a.input,
              First(a.children[0].agent), a.children[j].key);
    BranchHit(a.children, j, 1);
    var r := Invoke(h, o, k, a.children[0].agent, PathOf(a, path, 0), x);
    PlanWorks(h, o, k + |pick|, a.children[j].agent, PathOf(a, path, j), Handed(o, a, x, r, j),
              TracePayload(a, j), y, key);
  }

  /** Distinct keys: looking up a branch's key finds that branch. */
  lemma {:induction false} BranchHit(children: seq<Child>, j: nat, i: nat)
    requires 1 <= i <= j < |children|
    requires forall u, v :: 1 <= u < v < |children| ==> children[u].key != children[v].key
    ensures Branch(children, children[j].key, i) == j
    decreases j - i
  {
    if i < j {
      BranchHit(children, j, i + 1);
    }
  }

  lemma {:induction false} StagesWork(h: Hierarchy, o: Oracle, k: nat, a: Agent, path: string, i: nat, x: Value,
                                      tx: Class, y: Class, key: Key)
    requires Preorder(h) && a.Composite? && WellFormed(a) && Delivers(h, a) && AdaptsWell(h, o) && i < |a.children|
    requires StagesTrace(h, a, i, tx).Traced? && h(x.cls, tx)
    requires y in Yields(a.children[|a.children| - 1].agent) && Follows(o, k, StagesPlan(a, i, y, key))
    ensures Returns(Stages(h, o, k, a, path, i, x), y, key, k + |StagesPlan(a, i, y, key)|)
    decreases a, 1, |a.children| - i
  {
    var c := a.children[i].agent;
    if i == |a.children| - 1 {
      PlanWorks(h, o, k, c, PathOf(a, path, i), x, tx, y, key);
    } else {
      FirstYields(c);
      var p := Plan(c, First(c), 0);
      FollowsSplit(o, k, p, StagesPlan(a, i + 1, y, key));
      PlanWorks(h, o, k, c, PathOf(a, path, i), x, tx, First(c), 0);
      var r := Invoke(h, o, k, c, PathOf(a, path, i), x);
      YieldsFit(h, c, tx);
      StagesWork(h, o, r.clock, a, path, i + 1, r.outcome.value, c.output, y, key);
    }
  }

  lemma {:induction false} PassesWork(h: Hierarchy, o: Oracle, k: nat, a: Agent, path: string, n: nat, x: Value,
                                      tx: Class, y: Class, key: Key)
    requires Preorder(h) && a.Composite? && WellFormed(a) && Delivers(h, a) && AdaptsWell(h, o) && n >= 1
    requires LoopTrace(h, a, n, tx).Traced? && h(x.cls, tx)
    requires y in Yields(a.children[|a.children| - 1].agent) && Follows(o, k, Repeat(StagesPlan(a, 0, y, key), n))
    ensures Returns(Passes(h, o, k, a, path, n, x), y, key, k + |Repeat(StagesPlan(a, 0, y, key), n)|)
    decreases a, 2, n
  {
    var p := StagesPlan(a, 0, y, key);
    FollowsSplit(o, k, p, Repeat(p, n - 1));
    StagesWork(h, o, k, a, path, 0, x, tx, y, key);
    var r := Stages(h, o, k, a, path, 0, x);
    if n > 1 {
      var last := |a.children| - 1;
      StagesOut(h, a, 0, tx);
      var ti := StageTraced(h, a, 0, tx, last);
      YieldsFit(h, a.children[last].agent, ti);
      PassesWork(h, o, r.clock, a, path, n - 1, r.outcome.value, StagesTrace(h, a, 0, tx).out, y, key);
    }
  }

  lemma {:induction false} FanWorks(h: Hierarchy, o: Oracle, k: nat, a: Agent, path: string, x: Value, key: Key)
    requires Preorder(h) && WellFormed(a) && Delivers(h, a) && AdaptsWell(h, o) && a.Composite? && a.kind.Fan?
    requires ForwardTrace(h, a).Traced? && h(x.cls, a.input)
    requires Follows(o, k, PrefixPlan(a, 0, |a.children|) + [key])
    ensures Returns(Forward(h, o, k, a, path, x), a.kind.combined, key, k + |PrefixPlan(a, 0, |a.children|)| + 1)
    decreases a, 2
  {
    var p := PrefixPlan(a, 0, |a.children|);
    FollowsSplit(o, k, p, [key]);
    GatherWorks(h, o, k, a, path, 0, |a.children|, x, [], a.kind.combined);
    var g := Gather(h, o, k, a, path, 0, x, []);
    assert o.combine(k + |p|, a, g.values) == Answer(Value(a.kind.combined, [key][0], 0));
  }

  /** Children `i .. c` return; for `c` the end of the list, the whole gather succeeds. */
  lemma {:induction false} GatherWorks(h: Hierarchy, o: Oracle, k: nat, a: Agent, path: string, i: nat, c: nat,
                                       x: Value,
                                       values: seq<Value>, out: Class)
    requires Preorder(h) && WellFormed(a) && Delivers(h, a) && AdaptsWell(h, o) && a.Composite? && a.kind.Fan?
    requires i <= c == |a.children| && AllTrace(h, a, i, out).Traced? && h(x.cls, a.input)
    requires Follows(o, k, PrefixPlan(a, i, c))
    ensures var g := Gather(h, o, k, a, path, i, x, values);
      g.error.None? && g.clock == k + |PrefixPlan(a, i, c)|
    decreases a, 1, c - i
  {
    if i < c {
      var b := a.children[i].agent;
      FirstYields(b);
      var p := Plan(b, First(b), 0);
      FollowsSplit(o, k, p, PrefixPlan(a, i + 1, c));
      PlanWorks(h, o, k, b, PathOf(a, path, i), x, a.input, First(b), 0);
      var r := Invoke(h, o, k, b, PathOf(a, path, i), x);
      GatherWorks(h, o, r.clock, a, path, i + 1, c, x, values + [r.outcome.value], out);
    }
  }

  // ---- A run that breaks a router --------------------------------------------

  /** The first child from `i` on that contains an undeliverable router. */
  ghost function FirstBroken(h: Hierarchy, a: Agent, i: nat): (c: nat)
    requires a.Composite? && i <= |a.children|
    requires exists j :: i <= j < |a.children| && !Delivers(h, a.children[j].agent)
    ensures i <= c < |a.children| && !Delivers(h, a.children[c].agent)
    ensures forall j :: i <= j < c ==> Delivers(h, a.children[j].agent)
    decreases |a.children| - i
  {
    if !Delivers(h, a.children[i].agent) then i else FirstBroken(h, a, i + 1)
  }

  ghost predicate ChildBroken(h: Hierarchy, a: Agent)
    requires a.Composite?
  {
    exists j :: 0 <= j < |a.children| && !Delivers(h, a.children[j].agent)
  }

  ghost function Misfit(h: Hierarchy, a: Agent): (y: Class)
    requires a.Composite? && !Delivers(h, a) && !ChildBroken(h, a)
    ensures a.kind.Route? && y in Yields(a) && !h(y, a.output)
  {
    var y :| y in Yields(a) && !h(y, a.output);
    y
  }

  /** Answers that drive a run of `a` into an output mismatch. */
  ghost function BreakPlan(h: Hierarchy, a: Agent): seq<Key>
    requires WellFormed(a) && !Delivers(h, a)
    decreases a
  {
    if ChildBroken(h, a) then
      var c := FirstBroken(h, a, 0);
      FirstYields(a.children[0].agent);
      if !a.kind.Route? then PrefixPlan(a, 0, c) + BreakPlan(h, a.children[c].agent)
      else if c == 0 then BreakPlan(h, a.children[0].agent)
      else Plan(a.children[0].agent, First(a.children[0].agent), a.children[c].key) + BreakPlan(h, a.children[c].agent)
    else
      Plan(a, Misfit(h, a), 0)
  }

  lemma {:induction false} BreakWorks(h: Hierarchy, o: Oracle, k: nat, a: Agent, path: string, x: Value, tx: Class)
    requires Preorder(h) && WellFormed(a) && AdaptsWell(h, o) && !Delivers(h, a)
    requires Record(h, a, tx).Traced? && h(x.cls, tx) && Follows(o, k, BreakPlan(h, a))
    ensures OutputMismatch in Invoke(h, o, k, a, path, x).raised
    decreases a, 3
  {
    if !ChildBroken(h, a) {
      RouterBreaks(h, o, k, a, path, x);
    } else if a.kind.Route? {
      RouteBreaks(h, o, k, a, path, FirstBroken(h, a, 0), x);
    } else {
      LinearBreaks(h, o, k, a, path, FirstBroken(h, a, 0), x);
    }
  }

  lemma {:induction false} LinearBreaks(h: Hierarchy, o: Oracle, k: nat, a: Agent, path: string, c: nat, x: Value)
    requires Preorder(h) && a.Composite? && !a.kind.Route? && WellFormed(a) && AdaptsWell(h, o)
    requires c < |a.children| && !Delivers(h, a.children[c].agent)
    requires forall j :: 0 <= j < c ==> Delivers(h, a.children[j].agent)
    requires ForwardTrace(h, a).Traced? && h(x.cls, a.input)
    requires Follows(o, k, PrefixPlan(a, 0, c) + BreakPlan(h, a.children[c].agent))
    ensures OutputMismatch in Forward(h, o, k, a, path, x).raised
    decreases a, 2
  {
    match a.kind {
      case Sequence => StagesBreak(h, o, k, a, path, 0, c, x, a.input);
      case LoopOf(n) =>
        assert LoopTrace(h, a, n, a.input).Traced? && n >= 1;
        assert StagesTrace(h, a, 0, a.input).Traced?;
        StagesBreak(h, o, k, a, path, 0, c, x, a.input);
      case Fan(combined) => GatherBreaks(h, o, k, a, path, 0, c, x, [], combined);
    }
  }

  lemma PrefixFollows(o: Oracle, k: nat, a: Agent, i: nat, c: nat, rest: seq<Key>)
    requires a.Composite? && WellFormed(a) && i < c <= |a.children|
    requires Follows(o, k, PrefixPlan(a, i, c) + rest)
    ensures First(a.children[i].agent) in Yields(a.children[i].agent)
    ensures var p := Plan(a.children[i].agent, First(a.children[i].agent), 0);
            Follows(o, k, p) && Follows(o, k + |p|, PrefixPlan(a, i + 1, c) + rest)
  {
    hide Yields, Plan;
    var b := a.children[i].agent;
    FirstYields(b);
    var p, q := Plan(b, First(b), 0), PrefixPlan(a, i + 1, c) + rest;
    assert PrefixPlan(a, i, c) + rest == p + q;
    FollowsSplit(o, k, p, q);
  }

  lemma {:induction false} StagesBreak(h: Hierarchy, o: Oracle, k: nat, a: Agent, path: string, i: nat, c: nat,
                                       x: Value, tx: Class)
    requires Preorder(h) && a.Composite? && WellFormed(a) && AdaptsWell(h, o)
    requires i <= c < |a.children| && !Delivers(h, a.children[c].agent)
    requires forall j :: i <= j < c ==> Delivers(h, a.children[j].agent)
    requires StagesTrace(h, a, i, tx).Traced? && h(x.cls, tx)
    requires Follows(o, k, PrefixPlan(a, i, c) + BreakPlan(h, a.children[c].agent))
    ensures OutputMismatch in Stages(h, o, k, a, path, i, x).raised
    decreases a, 1, c - i
  {
    var b := a.children[i].agent;
    StagesTraced(h, a, i, tx);
    if i == c {
      assert PrefixPlan(a, i, c) + BreakPlan(h, b) == BreakPlan(h, b);
      BreakWorks(h, o, k, b, PathOf(a, path, i), x, tx);
    } else {
      var r := FirstStage(h, o, k, a, path, i, c, x, tx, BreakPlan(h, a.children[c].agent));
      StagesBreak(h, o, r.clock, a, path, i + 1, c, r.outcome.value, b.output);
      StagesGoOn(h, o, k, a, path, i, x, r);
    }
  }

  /** Child `i` works as planned, and the rest of the plan is ahead. */
  lemma FirstStage(h: Hierarchy, o: Oracle, k: nat, a: Agent, path: string, i: nat, c: nat, x: Value, tx: Class,
                   rest: seq<Key>)
    returns (r: Run)
    requires Preorder(h) && a.Composite? && WellFormed(a) && AdaptsWell(h, o) && i < c <= |a.children|
    requires Delivers(h, a.children[i].agent) && Record(h, a.children[i].agent, tx).Traced? && h(x.cls, tx)
    requires Follows(o, k, PrefixPlan(a, i, c) + rest)
    ensures r == Invoke(h, o, k, a.children[i].agent, PathOf(a, path, i), x) && r.outcome.Ok?
    ensures h(r.outcome.value.cls, a.children[i].agent.output)
    ensures Follows(o, r.clock, PrefixPlan(a, i + 1, c) + rest)
    decreases a, 0
  {
    hide Yields, Plan, PrefixPlan, Invoke, Record;
    var b := a.children[i].agent;
    PrefixFollows(o, k, a, i, c, rest);
    r := Invoke(h, o, k, b, PathOf(a, path, i), x);
    PlannedStage(h, o, k, b, PathOf(a, path, i), x, tx, r);
  }

  lemma StagesGoOn(h: Hierarchy, o: Oracle, k: nat, a: Agent, path: string, i: nat, x: Value, r: Run)
    requires a.Composite? && i < |a.children|
    requires r == Invoke(h, o, k, a.children[i].agent, PathOf(a, path, i), x) && r.outcome.Ok?
    ensures Stages(h, o, k, a, path, i, x).raised ==
            r.raised + Stages(h, o, r.clock, a, path, i + 1, r.outcome.value).raised
  {
  }

  lemma StagesTraced(h: Hierarchy, a: Agent, i: nat, tx: Class)
    requires a.Composite? && i < |a.children| && StagesTrace(h, a, i, tx).Traced?
    ensures var t := Record(h, a.children[i].agent, tx);
            t.Traced? && StagesTrace(h, a, i + 1, t.out).Traced?
  {
  }

  /** A child that follows its plan returns a value of its declared output. */
  lemma {:induction false} PlannedStage(h: Hierarchy, o: Oracle, k: nat, b: Agent, path: string, x: Value, tx: Class,
                                        r: Run)
    requires Preorder(h) && WellFormed(b) && Delivers(h, b) && AdaptsWell(h, o)
    requires Record(h, b, tx).Traced? && h(x.cls, tx) && First(b) in Yields(b)
    requires Follows(o, k, Plan(b, First(b), 0)) && r == Invoke(h, o, k, b, path, x)
    ensures r.outcome.Ok? && r.clock == k + |Plan(b, First(b), 0)| && h(r.outcome.value.cls, b.output)
    decreases b, 4
  {
    PlanWorks(h, o, k, b, path, x, tx, First(b), 0);
    YieldsFit(h, b, tx);
  }

  lemma {:induction false} GatherBreaks(h: Hierarchy, o: Oracle, k: nat, a: Agent, path: string, i: nat, c: nat,
                                        x: Value,
                                        values: seq<Value>, out: Class)
    requires Preorder(h) && a.Composite? && a.kind.Fan? && WellFormed(a) && AdaptsWell(h, o)
    requires i <= c < |a.children| && !Delivers(h, a.children[c].agent)
    requires forall j :: i <= j < c ==> Delivers(h, a.children[j].agent)
    requires AllTrace(h, a, i, out).Traced? && h(x.cls, a.input)
    requires Follows(o, k, PrefixPlan(a, i, c) + BreakPlan(h, a.children[c].agent))
    ensures OutputMismatch in Gather(h, o, k, a, path, i, x, values).raised
    decreases a, 1, c - i
  {
    var b := a.children[i].agent;
    if i == c {
      assert PrefixPlan(a, i, c) + BreakPlan(h, b) == BreakPlan(h, b);
      BreakWorks(h, o, k, b, PathOf(a, path, i), x, a.input);
    } else {
      var r := FirstStage(h, o, k, a, path, i, c, x, a.input, BreakPlan(h, a.children[c].agent));
      GatherBreaks(h, o, r.clock, a, path, i + 1, c, x, values + [r.outcome.value], out);
      GatherGoesOn(h, o, k, a, path, i, x, values, r);
    }
  }

  lemma GatherGoesOn(h: Hierarchy, o: Oracle, k: nat, a: Agent, path: string, i: nat, x: Value, values: seq<Value>,
                     r: Run)
    requires a.Composite? && i < |a.children|
    requires r == Invoke(h, o, k, a.children[i].agent, PathOf(a, path, i), x) && r.outcome.Ok?
    ensures Gather(h, o, k, a, path, i, x, values).raised ==
            r.raised + Gather(h, o, r.clock, a, path, i + 1, x, values + [r.outcome.value]).raised
  {
  }

  lemma {:induction false} RouteBreaks(h: Hierarchy, o: Oracle, k: nat, a: Agent, path: string, c: nat, x: Value)
    requires Preorder(h) && a.Composite? && a.kind.Route? && WellFormed(a) && AdaptsWell(h, o)
    requires ChildBroken(h, a) && c == FirstBroken(h, a, 0)
    requires ForwardTrace(h, a).Traced? && h(x.cls, a.input) && Follows(o, k, BreakPlan(h, a))
    ensures OutputMismatch in Forward(h, o, k, a, path, x).raised
    decreases a, 2
  {
    var selector, out := a.children[0].agent, a.children[1].agent.output;
    AllTraceChild(h, a, 0, out, 0);
    if c == 0 {
      BreakWorks(h, o, k, selector, PathOf(a, path, 0), x, a.input);
    } else {
      FirstYields(selector);
      AllTraceChild(h, a, 0, out, c);
      BranchBreaks(h, o, k, a, path, c, x, Plan(selector, First(selector), a.children[c].key));
    }
  }

  lemma {:induction false} BranchBreaks(h: Hierarchy, o: Oracle, k: nat, a: Agent, path: string, c: nat, x: Value,
                                        pick: seq<Key>)
    requires Preorder(h) && a.Composite? && a.kind.Route? && WellFormed(a) && AdaptsWell(h, o)
    requires 1 <= c < |a.children| && !Delivers(h, a.children[c].agent) && Delivers(h, a.children[0].agent)
    requires Record(h, a.children[0].agent, a.input).Traced?
    requires Record(h, a.children[c].agent, TracePayload(a, c)).Traced? && h(x.cls, a.input)
    requires First(a.children[0].agent) in Yields(a.children[0].agent)
    requires pick == Plan(a.children[0].agent, First(a.children[0].agent), a.children[c].key)
    requires Follows(o, k, pick + BreakPlan(h, a.children[c].agent))
    ensures OutputMismatch in Forward(h, o, k, a, path, x).raised
    decreases a, 1
  {
    hide Yields, Plan, BreakPlan, Record;
    var selector := a.children[0].agent;
    FollowsSplit(o, k, pick, BreakPlan(h, a.children[c].agent));
    PlanWorks(h, o, k, selector, PathOf(a, path, 0), x, a.input, First(selector), a.children[c].key);
    BranchHit(a.children, c, 1);
    var r := Invoke(h, o, k, selector, PathOf(a, path, 0), x);
    BreakWorks(h, o, k + |pick|, a.children[c].agent, PathOf(a, path, c), Handed(o, a, x, r, c), TracePayload(a, c));
  }

  /** The broken router itself: the chosen branch returns a value that the router rejects. */
  lemma {:induction false} RouterBreaks(h: Hierarchy, o: Oracle, k: nat, a: Agent, path: string, x: Value)
    requires Preorder(h) && WellFormed(a) && AdaptsWell(h, o) && !Delivers(h, a) && !ChildBroken(h, a)
    requires ForwardTrace(h, a).Traced? && h(x.cls, a.input) && Follows(o, k, BreakPlan(h, a))
    ensures OutputMismatch in Invoke(h, o, k, a, path, x).raised
    decreases a, 2
  {
    hide First, Plan, Yields, Follows;
    var y := Misfit(h, a);
    var j, pick := RoutePlan(o, k, a, y, 0);
    var selector, branch := a.children[0].agent, a.children[j].agent;
    var out := a.children[1].agent.output;
    AllTraceChild(h, a, 0, out, 0);
    AllTraceChild(h, a, 0, out, j);
    PlanWorks(h, o, k, selector, PathOf(a, path, 0), x, a.input, First(selector), a.children[j].key);
    BranchHit(a.children, j, 1);
    var r := Invoke(h, o, k, selector, PathOf(a, path, 0), x);
    PlanWorks(h, o, k + |pick|, branch, PathOf(a, path, j), Handed(o, a, x, r, j), TracePayload(a, j), y, 0);
  }

  // ---- The theorem ------------------------------------------------------------

  function KeyAt(plan: seq<Key>, k: nat): Key {
    if k < |plan| then plan[k] else 0
  }

  /** The oracle that answers with the declared classes and the keys of `plan`. */
  function Scripted(plan: seq<Key>): Oracle {
    Oracle(
      (k: nat, a: Agent, x: Value) => Answer(Value(a.output, KeyAt(plan, k), 0)),
      (k: nat, a: Agent, xs: seq<Value>) =>
        Answer(Value(if a.Composite? && a.kind.Fan? then a.kind.combined else 0, KeyAt(plan, k), 0)),
      (k: nat, a: Agent, x: Value, y: Value, i: nat) =>
        Value(if a.Composite? && i < |a.children| then a.children[i].agent.input else 0, 0, 0))
  }

  ghost predicate NeverMismatches(h: Hierarchy, root: Agent, name: string) {
    forall o: Oracle, x: Value :: Respects(h, o) && h(x.cls, root.input) ==>
      NoMismatch(Invoke(h, o, 0, root, name, x).raised)
  }

  /** EXACT CONDITION. For an accepted tree no run of well-behaved leaves ever raises a mismatch if and
      only if every router accepts whatever its branches yield. */
  lemma NeverMismatchesIffDelivers(h: Hierarchy, root: Agent, name: string)
    requires Preorder(h) && WellFormed(root) && Build(h, root).Traced?
    ensures NeverMismatches(h, root, name) <==> Delivers(h, root)
  {
    if Delivers(h, root) {
      forall o: Oracle, x: Value | Respects(h, o) && h(x.cls, root.input)
        ensures NoMismatch(Invoke(h, o, 0, root, name, x).raised)
      {
        BuildIsSound(h, o, root, name, x);
      }
    } else {
      var o := Scripted(BreakPlan(h, root));
      var x := Value(root.input, 0, 0);
      BreakWorks(h, o, 0, root, name, x, root.input);
      assert Respects(h, o);
      assert !NoMismatch(Invoke(h, o, 0, root, name, x).raised);
    }
  }
}
