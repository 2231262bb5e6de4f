/** The paths that runs report, against the paths that `build()` has recorded. */
module RunPaths {
  import opened Options
  import opened Architectures
  import opened TracerPaths

  ghost predicate Within(visited: seq<string>, paths: seq<string>) {
    forall p :: p in visited ==> p in paths
  }

  function PathsOf(ns: seq<Node>): seq<string> {
    seq(|ns|, i requires 0 <= i < |ns| => ns[i].path)
  }

  lemma PathsJoin(ns: seq<Node>, ms: seq<Node>)
    ensures PathsOf(ns + ms) == PathsOf(ns) + PathsOf(ms)
  {
  }

  lemma PathsIn(ns: seq<Node>, ms: seq<Node>)
    requires forall n :: n in ns ==> n in ms
    ensures Within(PathsOf(ns), PathsOf(ms))
  {
    forall p | p in PathsOf(ns)
      ensures p in PathsOf(ms)
    {
      var i :| 0 <= i < |ns| && ns[i].path == p;
      assert ns[i] in ms;
      var j :| 0 <= j < |ms| && ms[j] == ns[i];
      assert PathsOf(ms)[j] == p;
    }
  }

  // ---- Every run stays on planned paths ----------------------------------------------------------

  /** The paths of the children of `a` and of what they invoke. */
  ghost predicate BelowOnly(visited: seq<string>, a: Agent, path: string)
    requires a.Composite?
  {
    forall p :: p in visited ==> PlannedBelow(p, a, path)
  }

  ghost predicate PlannedBelow(p: string, a: Agent, path: string)
    requires a.Composite?
  {
    exists j :: 0 <= j < |a.children| && p in PathsOf(Planned(a.children[j].agent, PathOf(a, path, j)))
  }

  lemma {:induction false} PlannedHas(a: Agent, own: string, js: seq<nat>, i: nat)
    requires ChildIndices(a, js) && i < |js|
    ensures forall n :: n in Planned(a.children[js[i]].agent, PathOf(a, own, js[i])) ==> n in PlannedAll(a, own, js)
    decreases i
  {
    if i > 0 {
      assert js[1..][i - 1] == js[i];
      PlannedHas(a, own, js[1..], i - 1);
    }
  }

  lemma BelowIsPlanned(visited: seq<string>, a: Agent, path: string)
    requires a.Composite? && WellFormed(a) && BelowOnly(visited, a, path)
    ensures Within([path] + visited, PathsOf(Planned(a, path)))
  {
    forall p | p in visited
      ensures p in PathsOf(Planned(a, path))
    {
      assert PlannedBelow(p, a, path);
      var j :| 0 <= j < |a.children| && p in PathsOf(Planned(a.children[j].agent, PathOf(a, path, j)));
      TurnsCover(a, j);
      var i :| 0 <= i < |Turns(a)| && Turns(a)[i] == j;
      PlannedHas(a, path, Turns(a), i);
      PathsIn(Planned(a.children[j].agent, PathOf(a, path, j)), Planned(a, path));
    }
    assert PathsOf(Planned(a, path))[0] == path;
  }

  lemma {:induction false} InvokeWithin(h: Hierarchy, o: Oracle, k: nat, a: Agent, path: string, x: Value)
    requires WellFormed(a)
    ensures Within(Invoke(h, o, k, a, path, x).visited, PathsOf(Planned(a, path)))
    decreases a, 4
  {
    assert PathsOf(Planned(a, path))[0] == path;
    if a.Composite? && h(x.cls, a.input) {
      var r := Forward(h, o, k, a, path, x);
      ForwardBelow(h, o, k, a, path, x);
      BelowIsPlanned(r.visited, a, path);
      assert Invoke(h, o, k, a, path, x).visited == [path] + r.visited;
    }
  }

  lemma {:induction false} ForwardBelow(h: Hierarchy, o: Oracle, k: nat, a: Agent, path: string, x: Value)
    requires WellFormed(a) && a.Composite?
    ensures BelowOnly(Forward(h, o, k, a, path, x).visited, a, path)
    decreases a, 3
  {
    match a.kind {
      case Sequence => StagesBelow(h, o, k, a, path, 0, x);
      case LoopOf(n) => PassesBelow(h, o, k, a, path, n, x);
      case Fan(_) => GatherBelow(h, o, k, a, path, 0, x, []);
      case Route(_) =>
        ChildBelow(h, o, k, a, path, 0, x);
        var r := Invoke(h, o, k, a.children[0].agent, PathOf(a, path, 0), x);
        if r.outcome.Ok? {
          var i := Branch(a.children, r.outcome.value.key, 1);
          if i < |a.children| {
            var payload := if a.kind.adapted then o.adapt(r.clock, a, x, r.outcome.value, i) else x;
            ChildBelow(h, o, r.clock, a, path, i, payload);
          }
        }
    }
  }

  lemma {:induction false} ChildBelow(h: Hierarchy, o: Oracle, k: nat, a: Agent, path: string, i: nat, x: Value)
    requires WellFormed(a) && a.Composite? && i < |a.children|
    ensures BelowOnly(Invoke(h, o, k, a.children[i].agent, PathOf(a, path, i), x).visited, a, path)
    decreases a, 0
  {
    InvokeWithin(h, o, k, a.children[i].agent, PathOf(a, path, i), x);
  }

  lemma {:induction false} StagesBelow(h: Hierarchy, o: Oracle, k: nat, a: Agent, path: string, i: nat, x: Value)
    requires WellFormed(a) && a.Composite? && i <= |a.children|
    ensures BelowOnly(Stages(h, o, k, a, path, i, x).visited, a, path)
    decreases a, 1, |a.children| - i
  {
    if i < |a.children| {
      ChildBelow(h, o, k, a, path, i, x);
      var r := Invoke(h, o, k, a.children[i].agent, PathOf(a, path, i), x);
      if r.outcome.Ok? {
        StagesBelow(h, o, r.clock, a, path, i + 1, r.outcome.value);
      }
    }
  }

  lemma {:induction false} PassesBelow(h: Hierarchy, o: Oracle, k: nat, a: Agent, path: string, n: nat, x: Value)
    requires WellFormed(a) && a.Composite?
    ensures BelowOnly(Passes(h, o, k, a, path, n, x).visited, a, path)
    decreases a, 2, n
  {
    if n > 0 {
      StagesBelow(h, o, k, a, path, 0, x);
      var r := Stages(h, o, k, a, path, 0, x);
      if r.outcome.Ok? {
        PassesBelow(h, o, r.clock, a, path, n - 1, r.outcome.value);
      }
    }
  }

  lemma {:induction false} GatherBelow(h: Hierarchy, o: Oracle, k: nat, a: Agent, path: string, i: nat, x: Value,
                                       values: seq<Value>)
    requires WellFormed(a) && a.Composite? && i <= |a.children|
    ensures BelowOnly(Gather(h, o, k, a, path, i, x, values).visited, a, path)
    decreases a, 1, |a.children| - i
  {
    if i < |a.children| {
      ChildBelow(h, o, k, a, path, i, x);
      var r := Invoke(h, o, k, a.children[i].agent, PathOf(a, path, i), x);
      GatherBelow(h, o, r.clock, a, path, i + 1, x, if r.outcome.Ok? then values + [r.outcome.value] else values);
    }
  }

  // ---- Without a router a run passes every planned path -----------------------------------------------

  ghost predicate NoRouter(a: Agent) {
    a.Composite? ==>
      && !a.kind.Route?
      && forall i :: 0 <= i < |a.children| ==> NoRouter(a.children[i].agent)
  }

  lemma {:induction false} PlannedConcat(a: Agent, own: string, js: seq<nat>, ks: seq<nat>)
    requires ChildIndices(a, js) && ChildIndices(a, ks)
    ensures PlannedAll(a, own, js + ks) == PlannedAll(a, own, js) + PlannedAll(a, own, ks)
    decreases |js|
  {
    if |js| == 0 {
      assert js + ks == ks;
    } else {
      assert (js + ks)[0] == js[0] && (js + ks)[1..] == js[1..] + ks;
      PlannedConcat(a, own, js[1..], ks);
    }
  }

  lemma {:induction false} InvokeVisits(h: Hierarchy, o: Oracle, k: nat, a: Agent, path: string, x: Value)
    requires NoRouter(a) && Invoke(h, o, k, a, path, x).outcome.Ok?
    ensures Invoke(h, o, k, a, path, x).visited == PathsOf(Planned(a, path))
    decreases a, 4
  {
    if a.Composite? {
      PathsJoin([NodeOf(a, path)], PlannedAll(a, path, Turns(a)));
      match a.kind {
        case Sequence =>
          assert UpTo(|a.children|)[0..] == Turns(a);
          StagesVisit(h, o, k, a, path, 0, x);
        case LoopOf(n) => PassesVisit(h, o, k, a, path, n, x);
        case Fan(_) =>
          assert UpTo(|a.children|)[0..] == Turns(a);
          GatherVisits(h, o, k, a, path, 0, x, []);
      }
    }
  }

  lemma {:induction false} StagesVisit(h: Hierarchy, o: Oracle, k: nat, a: Agent, path: string, i: nat, x: Value)
    requires a.Composite? && NoRouter(a) && i <= |a.children| && Stages(h, o, k, a, path, i, x).outcome.Ok?
    ensures Stages(h, o, k, a, path, i, x).visited == PathsOf(PlannedAll(a, path, UpTo(|a.children|)[i..]))
    decreases a, 1, |a.children| - i
  {
    if i < |a.children| {
      var js := UpTo(|a.children|)[i..];
      assert js[0] == i && js[1..] == UpTo(|a.children|)[i + 1..];
      InvokeVisits(h, o, k, a.children[i].agent, PathOf(a, path, i), x);
      var r := Invoke(h, o, k, a.children[i].agent, PathOf(a, path, i), x);
      StagesVisit(h, o, r.clock, a, path, i + 1, r.outcome.value);
      PathsJoin(Planned(a.children[i].agent, PathOf(a, path, i)), PlannedAll(a, path, js[1..]));
    }
  }

  lemma {:induction false} PassesVisit(h: Hierarchy, o: Oracle, k: nat, a: Agent, path: string, n: nat, x: Value)
    requires a.Composite? && NoRouter(a) && Passes(h, o, k, a, path, n, x).outcome.Ok?
    ensures ChildIndices(a, Rounds(|a.children|, n))
    ensures Passes(h, o, k, a, path, n, x).visited == PathsOf(PlannedAll(a, path, Rounds(|a.children|, n)))
    decreases a, 2, n
  {
    RoundsBounded(|a.children|, n);
    if n > 0 {
      RoundsBounded(|a.children|, n - 1);
      assert UpTo(|a.children|)[0..] == UpTo(|a.children|);
      PlannedConcat(a, path, UpTo(|a.children|), Rounds(|a.children|, n - 1));
      PathsJoin(PlannedAll(a, path, UpTo(|a.children|)), PlannedAll(a, path, Rounds(|a.children|, n - 1)));
      StagesVisit(h, o, k, a, path, 0, x);
      var r := Stages(h, o, k, a, path, 0, x);
      PassesVisit(h, o, r.clock, a, path, n - 1, r.outcome.value);
    }
  }

  lemma {:induction false} GatherVisits(h: Hierarchy, o: Oracle, k: nat, a: Agent, path: string, i: nat, x: Value,
                                        values: seq<Value>)
    requires a.Composite? && NoRouter(a) && i <= |a.children|
    requires Gather(h, o, k, a, path, i, x, values).error.None?
    ensures Gather(h, o, k, a, path, i, x, values).visited
         == PathsOf(PlannedAll(a, path, UpTo(|a.children|)[i..]))
    decreases a, 1, |a.children| - i
  {
    if i < |a.children| {
      var js := UpTo(|a.children|)[i..];
      assert js[0] == i && js[1..] == UpTo(|a.children|)[i + 1..];
      InvokeVisits(h, o, k, a.children[i].agent, PathOf(a, path, i), x);
      var r := Invoke(h, o, k, a.children[i].agent, PathOf(a, path, i), x);
      GatherVisits(h, o, r.clock, a, path, i + 1, x, values + [r.outcome.value]);
      PathsJoin(Planned(a.children[i].agent, PathOf(a, path, i)), PlannedAll(a, path, js[1..]));
    }
  }

  // ---- Runs against the recorded graph -------------------------------------------------------------

  /** The trace has one end, and in a tame tree its nodes are the planned paths. */
  lemma EndOfTrace(root: Agent, n: nat)
    requires WellFormed(root) && root.Composite? && Tame(root) && Steps(n, Start(root)).ready == []
    ensures Nodes(Steps(n, Start(root))) == Planned(root, root.name)
  {
    var k := TameTrace(root);
    var m := Start(root);
    if n <= k {
      StepsAdd(n, k - n, m);
      LogGrows(k - n, Steps(n, m));
    } else {
      StepsAdd(k, n - k, m);
      LogGrows(n - k, Steps(k, m));
    }
  }

  /** RUN PATHS LIE IN THE GRAPH. If of gathered siblings only the last one gathers again, every path
      that an invocation of any run reports, failed runs included, is that of a recorded node. */
  lemma RunPathsAreRecorded(h: Hierarchy, o: Oracle, root: Agent, x: Value, n: nat)
    requires WellFormed(root) && root.Composite? && Tame(root) && Steps(n, Start(root)).ready == []
    ensures Within(Invoke(h, o, 0, root, root.name, x).visited, PathsOf(Nodes(Steps(n, Start(root)))))
  {
    EndOfTrace(root, n);
    InvokeWithin(h, o, 0, root, root.name, x);
  }

  /** Without a router, a run that returns a value passes each recorded node as often as the trace did;
      gathered siblings run in any order. */
  lemma RunVisitsTheGraph(h: Hierarchy, o: Oracle, root: Agent, x: Value, n: nat)
    requires WellFormed(root) && root.Composite? && Tame(root) && Steps(n, Start(root)).ready == []
    requires NoRouter(root) && Invoke(h, o, 0, root, root.name, x).outcome.Ok?
    ensures multiset(Invoke(h, o, 0, root, root.name, x).visited) == multiset(PathsOf(Nodes(Steps(n, Start(root)))))
  {
    EndOfTrace(root, n);
    InvokeVisits(h, o, 0, root, root.name, x);
  }

  // ---- The smallest tree whose graph is wrong --------------------------------------------------------

  const ONE := Leaf(3, "one", 0, 0)
  const LAST := Leaf(2, "last", 0, 0)
  const INNER := Composite(1, "inner", 0, 0, Fan(0), [Child("a1", 0, ONE)])
  const NESTED := Composite(0, "r", 0, 0, Fan(0), [Child("a", 0, INNER), Child("b", 0, LAST)])

  lemma NestedNames()
    ensures PathOf(NESTED, "r", 0) == "r.a" && PathOf(NESTED, "r", 1) == "r.b" && PathOf(INNER, "r.a", 0) == "r.a.a1"
    ensures Hint(NESTED.children, INNER) == "a" && Hint(INNER.children, LAST) == "last"
  {
    assert NESTED.children[0].agent == INNER && NESTED.children[1].agent == LAST;
    assert NESTED.children[1..] == [Child("b", 0, LAST)];
    assert NESTED.children[1..][0].agent == LAST;
    assert INNER.children[1..] == [] && AttrOf([], 2) == "";
    assert INNER.children[0].agent == ONE;
    assert AttrOf(INNER.children, 2) == AttrOf(INNER.children[1..], 2);
    assert AttrOf(NESTED.children, 2) == AttrOf(NESTED.children[1..], 2);
  }

  /** All paths a run of that tree can report. */
  lemma NestedPlan()
    ensures PathsOf(Planned(NESTED, "r")) == ["r", "r.a", "r.a.a1", "r.b"]
  {
    NestedNames();
    assert Turns(INNER) == [0] && [0][1..] == [];
    assert PlannedAll(INNER, "r.a", [0]) == Planned(ONE, "r.a.a1") + PlannedAll(INNER, "r.a", []);
    assert Turns(NESTED) == [0, 1] && [0, 1][1..] == [1] && [1][1..] == [];
    assert PlannedAll(NESTED, "r", [1]) == Planned(LAST, "r.b") + PlannedAll(NESTED, "r", []);
    assert PlannedAll(NESTED, "r", [0, 1]) == Planned(INNER, "r.a") + PlannedAll(NESTED, "r", [1]);
  }

  const FIRST_TASK := Resume(Task([Call(INNER, "r.a")], Some(0)))
  const SECOND_TASK := Resume(Task([Call(LAST, "r.b")], Some(0)))

  const GATHERED :=
    Tracer(NESTED, [], [], [FIRST_TASK, SECOND_TASK], map[0 := Waiting(2, Task([], None))], 1)

  const ENTERED :=
    GATHERED.(ready := [Resume(Task([Fork(INNER, "r.a"), Return], Some(0))), SECOND_TASK],
              stack := [Frame(INNER, "r.a")], log := [Event(NodeOf(INNER, "r.a"), "r.a")])

  lemma NestedGathers()
    ensures Step(Start(NESTED)) == GATHERED
  {
    NestedNames();
    assert Forks(NESTED, "r", 2, 0) == [];
    assert Forks(NESTED, "r", 1, 0) == [SECOND_TASK];
    assert Forks(NESTED, "r", 0, 0) == [FIRST_TASK, SECOND_TASK];
    assert Body(NESTED, "r") == [Fork(NESTED, "r")] && [Fork(NESTED, "r")][1..] == [];
    assert Start(NESTED).ready[1..] == [];
  }

  lemma NestedEnters()
    ensures Step(GATHERED) == ENTERED
  {
    NestedNames();
    var todo := [Call(INNER, "r.a")];
    assert todo[1..] == [] && GATHERED.ready[1..] == [SECOND_TASK];
    assert Body(INNER, "r.a") + [Return] + [] == [Fork(INNER, "r.a"), Return];
    assert Callee(NESTED, [], INNER) == "r.a";
  }

  const THIRD_TASK := Resume(Task([Call(ONE, "r.a.a1")], Some(1)))

  const BOTH_WAIT := map[0 := Waiting(2, Task([], None)), 1 := Waiting(1, Task([Return], Some(0)))]

  /** The second leaf has been recorded while the inner gather waits. */
  const MISRECORDED :=
    Tracer(NESTED, [Frame(INNER, "r.a")],
           [Event(NodeOf(INNER, "r.a"), "r.a"), Event(NodeOf(LAST, "r.a.last"), "r.b")],
           [Resume(Task([], Some(0))), THIRD_TASK], BOTH_WAIT, 2)

  lemma NestedMisrecords()
    ensures Step(Step(ENTERED)) == MISRECORDED
  {
    NestedNames();
    assert [Fork(INNER, "r.a"), Return][1..] == [Return];
    assert Forks(INNER, "r.a", 1, 1) == [] && Forks(INNER, "r.a", 0, 1) == [THIRD_TASK];
    var m := Step(ENTERED);
    assert ENTERED.ready[1..] == [SECOND_TASK];
    assert m == ENTERED.(ready := [SECOND_TASK, THIRD_TASK], waiting := BOTH_WAIT, next := 2);
    var todo := [Call(LAST, "r.b")];
    assert todo[1..] == [] && m.ready[1..] == [THIRD_TASK];
    assert Callee(NESTED, m.stack, LAST) == "r.a.last";
  }

  const LEAF_DONE :=
    MISRECORDED.(log := MISRECORDED.log + [Event(NodeOf(ONE, "r.a.a1"), "r.a.a1")],
                 ready := [Finished(0), Finished(1)])

  lemma NestedLeaf()
    ensures Steps(3, MISRECORDED) == LEAF_DONE
  {
    NestedNames();
    var m1 := MISRECORDED.(ready := [THIRD_TASK, Finished(0)]);
    assert Step(MISRECORDED) == m1;
    var todo := [Call(ONE, "r.a.a1")];
    assert todo[1..] == [] && m1.ready[1..] == [Finished(0)];
    assert Hint(INNER.children, ONE) == "a1" && Callee(NESTED, m1.stack, ONE) == "r.a.a1";
    var m2 := LEAF_DONE.(ready := [Resume(Task([], Some(1))), Finished(0)]);
    assert Step(m1) == m2;
    assert m2.ready[1..] == [Finished(0)];
    OneMoreStep(0, MISRECORDED);
    OneMoreStep(1, MISRECORDED);
    OneMoreStep(2, MISRECORDED);
  }

  lemma NestedEnds()
    ensures Steps(6, LEAF_DONE).ready == [] && Steps(6, LEAF_DONE).log == LEAF_DONE.log
    ensures Steps(6, LEAF_DONE).root == NESTED
  {
    var m1 := LEAF_DONE.(ready := [Finished(1)], waiting := BOTH_WAIT[0 := Waiting(1, Task([], None))]);
    assert Step(LEAF_DONE) == m1;
    var m2 := m1.(ready := [Resume(Task([Return], Some(0)))], waiting := m1.waiting - {1});
    assert Step(m1) == m2;
    assert [Return][1..] == [];
    var m3 := m2.(ready := [Resume(Task([], Some(0)))], stack := []);
    assert Step(m2) == m3;
    var m4 := m3.(ready := [Finished(0)]);
    assert Step(m3) == m4;
    var m5 := Step(m4);
    assert m5.ready == [Resume(Task([], None))];
    OneMoreStep(0, LEAF_DONE);
    OneMoreStep(1, LEAF_DONE);
    OneMoreStep(2, LEAF_DONE);
    OneMoreStep(3, LEAF_DONE);
    OneMoreStep(4, LEAF_DONE);
    OneMoreStep(5, LEAF_DONE);
  }

  lemma FirstStep(m: Tracer)
    ensures Steps(1, m) == Step(m)
  {
  }

  /** The whole trace of the nested gather. */
  lemma NestedTrace()
    ensures var m := Steps(13, Start(NESTED));
      && m.ready == []
      && Nodes(m) == [NodeOf(NESTED, "r"), NodeOf(INNER, "r.a"), NodeOf(LAST, "r.a.last"), NodeOf(ONE, "r.a.a1")]
  {
    hide Step, Steps;
    NestedGathers();
    NestedEnters();
    NestedMisrecords();
    NestedLeaf();
    NestedEnds();
    var m := Start(NESTED);
    FirstStep(m);
    OneMoreStep(1, m);
    OneMoreStep(2, m);
    OneMoreStep(3, m);
    assert Steps(4, m) == MISRECORDED;
    StepsAdd(4, 3, m);
    StepsAdd(7, 6, m);
    assert Recorded(LEAF_DONE.log) == [NodeOf(INNER, "r.a"), NodeOf(LAST, "r.a.last"), NodeOf(ONE, "r.a.a1")];
  }

  lemma NestedShape()
    ensures WellFormed(NESTED) && NoRouter(NESTED) && !Tame(NESTED)
  {
    assert Suspends(NESTED.children[0].agent);
  }

  /** A gather with a gather and then a leaf: the leaf is recorded below its sibling, under a path that
      no run ever reports, and never under its own. */
  lemma NestedGatherIsMisrecorded(h: Hierarchy, o: Oracle, x: Value)
    ensures WellFormed(NESTED) && NoRouter(NESTED) && !Tame(NESTED)
    ensures Steps(13, Start(NESTED)).ready == []
    ensures PathsOf(Nodes(Steps(13, Start(NESTED)))) == ["r", "r.a", "r.a.last", "r.a.a1"]
    ensures "r.a.last" !in Invoke(h, o, 0, NESTED, NESTED.name, x).visited
  {
    hide Step, Steps, Invoke, Planned;
    NestedTrace();
    NestedShape();
    NestedPlan();
    InvokeWithin(h, o, 0, NESTED, "r", x);
    var ns := Nodes(Steps(13, Start(NESTED)));
    assert PathsOf(ns) == [ns[0].path, ns[1].path, ns[2].path, ns[3].path];
  }
}
