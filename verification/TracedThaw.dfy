/** Thawing with the graph that `build()` has recorded: tame trees come back, others may not. */
module TracedThaw {
  import opened Options
  import opened AgentTrees
  import opened AgentFreeze
  import opened AgentThaw
  import A = Architectures
  import T = TracerPaths
  import R = RunPaths

  // ---- Agents in memory and their architecture ---------------------------------------------------

  /** `types` says which Pydantic class a class number stands for. */
  ghost predicate Represents(types: nat -> Type, a: Agent, m: A.Agent)
    decreases m
  {
    && a.decl.name == m.name && a.io == Io(types(m.input), types(m.output))
    && (m.Leaf? ==> a.children.Keys == {})
    && (m.Composite? ==>
          && Attached(a, m.children)
          && forall i :: 0 <= i < |m.children| ==>
               Represents(types, a.children[m.children[i].attr], m.children[i].agent))
  }

  /** The children under their attributes; one id is one object. */
  ghost predicate Attached(a: Agent, cs: seq<A.Child>) {
    && (forall i :: 0 <= i < |cs| ==> cs[i].attr in a.children && cs[i].attr != "")
    && (forall k :: k in a.children ==> exists i :: 0 <= i < |cs| && cs[i].attr == k)
    && (forall i, j :: 0 <= i < j < |cs| ==> cs[i].attr != cs[j].attr)
    && (forall i, j :: 0 <= i < |cs| && 0 <= j < |cs| && cs[i].agent.id == cs[j].agent.id ==>
          a.children[cs[i].attr] == a.children[cs[j].attr])
  }

  /** No agent is attached twice to one parent. */
  ghost predicate Apart(a: Agent)
    requires Ranked(a)
    decreases a.rank
  {
    AllDifferent(a.children) && forall k :: k in a.children ==> Apart(a.children[k])
  }

  lemma {:induction false} UnsharedApart(root: Agent, a: Agent, at: Path)
    requires Unshared(root) && Walk(root, at) == Some(a) && Ranked(a)
    ensures Apart(a)
    decreases a.rank
  {
    forall k, l | k in a.children && l in a.children && a.children[k] == a.children[l]
      ensures k == l
    {
      WalkSnoc(root, at, a, k);
      WalkSnoc(root, at, a, l);
      assert (at + [k])[|at|] == k && (at + [l])[|at|] == l;
    }
    forall k | k in a.children
      ensures Apart(a.children[k])
    {
      WalkSnoc(root, at, a, k);
      UnsharedApart(root, a.children[k], at + [k]);
    }
  }

  /** The first attribute that holds an object is the one it is listed under. */
  lemma {:induction false} AttrIs(a: Agent, cs: seq<A.Child>, i: nat, from: nat)
    requires Attached(a, cs) && AllDifferent(a.children) && from <= i < |cs|
    ensures A.AttrOf(cs[from..], cs[i].agent.id) == cs[i].attr
    decreases i - from
  {
    assert cs[from..][0] == cs[from] && cs[from..][1..] == cs[from + 1..];
    if from < i {
      AttrIs(a, cs, i, from + 1);
      assert cs[from].agent.id != cs[i].agent.id by {
        assert a.children[cs[from].attr] != a.children[cs[i].attr];
      }
    }
  }

  lemma PathIs(a: Agent, m: A.Agent, name: string, at: Path, i: nat)
    requires m.Composite? && Attached(a, m.children) && AllDifferent(a.children) && i < |m.children|
    ensures A.PathOf(m, Dotted(name, at), i) == Dotted(name, at + [m.children[i].attr])
  {
    assert m.children[0..] == m.children;
    AttrIs(a, m.children, i, 0);
    assert (at + [m.children[i].attr])[..|at|] == at;
  }

  // ---- Every agent has its node, and every node its agent ------------------------------------------

  function IoOf(types: nat -> Type, n: T.Node): Io {
    Io(types(n.input), types(n.output))
  }

  /** `n` is the node of the agent at `p` below the agent at `at`. */
  ghost predicate NodeFor(types: nat -> Type, n: T.Node, a: Agent, name: string, at: Path, p: Path) {
    Walk(a, p).Some? && n.path == Dotted(name, at + p) && IoOf(types, n) == Walk(a, p).value.io
  }

  lemma NodeBelow(types: nat -> Type, n: T.Node, a: Agent, name: string, at: Path, k: string, q: Path)
    requires k in a.children && NodeFor(types, n, a.children[k], name, at + [k], q)
    ensures NodeFor(types, n, a, name, at, [k] + q)
  {
    assert ([k] + q)[1..] == q;
    assert at + [k] + q == at + ([k] + q);
  }

  lemma {:induction false} AgentHasNode(types: nat -> Type, a: Agent, m: A.Agent, name: string, at: Path, p: Path)
    returns (n: T.Node)
    requires Represents(types, a, m) && A.WellFormed(m) && Ranked(a) && Apart(a) && Walk(a, p).Some?
    ensures n in T.Planned(m, Dotted(name, at)) && NodeFor(types, n, a, name, at, p)
    decreases |p|
  {
    if |p| == 0 {
      n := T.NodeOf(m, Dotted(name, at));
      assert T.Planned(m, Dotted(name, at))[0] == n;
      assert at + p == at;
    } else {
      var i :| 0 <= i < |m.children| && m.children[i].attr == p[0];
      PathIs(a, m, name, at, i);
      n := AgentHasNode(types, a.children[p[0]], m.children[i].agent, name, at + [p[0]], p[1..]);
      NodeBelow(types, n, a, name, at, p[0], p[1..]);
      assert [p[0]] + p[1..] == p;
      T.TurnsCover(m, i);
      var t :| 0 <= t < |T.Turns(m)| && T.Turns(m)[t] == i;
      R.PlannedHas(m, Dotted(name, at), T.Turns(m), t);
    }
  }

  lemma {:induction false} NodeHasAgent(types: nat -> Type, a: Agent, m: A.Agent, name: string, at: Path, n: T.Node)
    returns (p: Path)
    requires Represents(types, a, m) && Ranked(a) && Apart(a) && n in T.Planned(m, Dotted(name, at))
    ensures NodeFor(types, n, a, name, at, p)
    decreases m, 1, 0
  {
    if n == T.NodeOf(m, Dotted(name, at)) {
      p := [];
      assert at + p == at;
    } else {
      p := NodeHasAgentIn(types, a, m, name, at, n, T.Turns(m));
    }
  }

  lemma {:induction false} NodeHasAgentIn(types: nat -> Type, a: Agent, m: A.Agent, name: string, at: Path, n: T.Node,
                                          js: seq<nat>)
    returns (p: Path)
    requires Represents(types, a, m) && Ranked(a) && Apart(a) && T.ChildIndices(m, js)
    requires n in T.PlannedAll(m, Dotted(name, at), js)
    ensures NodeFor(types, n, a, name, at, p)
    decreases m, 0, |js|
  {
    var c := m.children[js[0]];
    PathIs(a, m, name, at, js[0]);
    if n in T.Planned(c.agent, A.PathOf(m, Dotted(name, at), js[0])) {
      var q := NodeHasAgent(types, a.children[c.attr], c.agent, name, at + [c.attr], n);
      NodeBelow(types, n, a, name, at, c.attr, q);
      p := [c.attr] + q;
    } else {
      p := NodeHasAgentIn(types, a, m, name, at, n, js[1..]);
    }
  }

  // ---- The types looked up ---------------------------------------------------------------------------

  function GraphOf(types: nat -> Type, ns: seq<T.Node>): seq<Recorded> {
    seq(|ns|, i requires 0 <= i < |ns| => Recorded(ns[i].path, IoOf(types, ns[i])))
  }

  lemma {:induction false} LookedUp(graph: seq<Recorded>, l: string) returns (i: nat)
    requires l in IoMap(graph)
    ensures i < |graph| && graph[i].path == l && IoMap(graph)[l] == graph[i].io
  {
    if graph[|graph| - 1].path == l {
      i := |graph| - 1;
    } else {
      i := LookedUp(graph[..|graph| - 1], l);
    }
  }

  lemma {:induction false} RecordedIsFound(graph: seq<Recorded>, i: nat)
    requires i < |graph|
    ensures graph[i].path in IoMap(graph)
  {
    if i < |graph| - 1 {
      assert graph[..|graph| - 1][i] == graph[i];
      RecordedIsFound(graph[..|graph| - 1], i);
    }
  }

  lemma PlannedIsRight(types: nat -> Type, root: Agent, m: A.Agent, p: Path)
    requires Represents(types, root, m) && A.WellFormed(m) && Ranked(root) && Unshared(root) && Unambiguous(root)
    requires Walk(root, p).Some?
    ensures TypeRight(root, GraphOf(types, T.Planned(m, root.decl.name)), p)
  {
    var name, at: Path := root.decl.name, [];
    var ns := T.Planned(m, name);
    var graph := GraphOf(types, ns);
    assert Walk(root, at) == Some(root) && Dotted(name, at) == name;
    UnsharedApart(root, root, at);
    var n := AgentHasNode(types, root, m, name, at, p);
    var i :| 0 <= i < |ns| && ns[i] == n;
    assert at + p == p && graph[i].path == n.path;
    RecordedIsFound(graph, i);
    var j := LookedUp(graph, Dotted(name, p));
    assert ns[j] in ns;
    var q := NodeHasAgent(types, root, m, name, at, ns[j]);
    assert at + q == q && SameKey(root, p, q);
  }

  /** A TAME BUILT TREE HAS ITS TYPES RECORDED: at the end of its trace, every agent of an unshared tree
      is in the graph under its own path, with its own types. */
  lemma TameTypesRecorded(types: nat -> Type, root: Agent, m: A.Agent, n: nat)
    requires Represents(types, root, m) && A.WellFormed(m) && m.Composite? && T.Tame(m)
    requires T.Steps(n, T.Start(m)).ready == []
    requires Ranked(root) && Unshared(root) && Unambiguous(root)
    ensures var graph := GraphOf(types, T.Nodes(T.Steps(n, T.Start(m))));
      forall p: Path :: Walk(root, p).Some? ==> TypeRight(root, graph, p)
  {
    R.EndOfTrace(m, n);
    forall p: Path | Walk(root, p).Some?
      ensures TypeRight(root, GraphOf(types, T.Nodes(T.Steps(n, T.Start(m)))), p)
    {
      PlannedIsRight(types, root, m, p);
    }
  }

  /** TAME TREES ROUND TRIP: freezing a tree together with the graph of its tame trace and thawing it
      fails for the reasons of the tree alone, and every agent comes back with its own types. */
  method TameRoundTrip(root: Agent, graph: seq<Recorded>, ghost types: nat -> Type, ghost m: A.Agent, ghost n: nat)
    returns (r: Option<Agent>)
    requires Represents(types, root, m) && A.WellFormed(m) && m.Composite? && T.Tame(m)
    requires T.Steps(n, T.Start(m)).ready == [] && graph == GraphOf(types, T.Nodes(T.Steps(n, T.Start(m))))
    requires Ranked(root) && Unambiguous(root) && ClassName(root.cls.name)
    ensures r.Some? <==> Freezable(root) && Unshared(root) && root.decl.name != ""
    ensures r.Some? ==> Ranked(r.value) && fresh(Below(r.value)) && ThawedAs(root, r.value)
    ensures r.Some? ==> forall p: Path :: Walk(root, p).Some? ==>
      Walk(r.value, p).Some? && Walk(r.value, p).value.io == Walk(root, p).value.io
  {
    if Unshared(root) {
      TameTypesRecorded(types, root, m, n);
      assert TypesFound(root, graph);
    }
    r := FreezeThenThaw(root, graph);
    if r.Some? {
      TypesComeBackIff(root, r.value, graph);
    }
  }

  // ---- The nested gather ------------------------------------------------------------------------------

  /** The leaf that was recorded below its sibling is not found under its own path. */
  lemma NestedTypeMissing(types: nat -> Type, root: Agent)
    requires Represents(types, root, R.NESTED) && "b" in root.children && root.children["b"].cls.declared.None?
    ensures !TypesFound(root, GraphOf(types, T.Nodes(T.Steps(13, T.Start(R.NESTED)))))
  {
    R.NestedTrace();
    var graph := GraphOf(types, T.Nodes(T.Steps(13, T.Start(R.NESTED))));
    var p := ["b"];
    assert p[..0] == [] && p[1..] == [];
    assert Walk(root.children["b"], []) == Some(root.children["b"]);
    assert Walk(root, p) == Some(root.children["b"]);
    assert Dotted("r", p) == "r.b";
    assert !TypeFound(root, graph, p) by {
      if "r.b" in IoMap(graph) {
        var i := LookedUp(graph, "r.b");
      }
    }
  }

  const DECL := Decl("", "", "", "", "", [], [], None)

  const UNTYPED_LEAF := Class("Agent", false, None)
  const UNTYPED_PARALLEL := Class("Parallel", true, None)

  function TypeNumber(n: nat): Type {
    Type("T", n)
  }

  const SAME := Io(TypeNumber(0), TypeNumber(0))

  ghost predicate Made(a: Agent, cls: Class, name: string, children: map<string, Agent>) {
    a.cls == cls && a.decl == DECL.(name := name) && a.io == SAME && a.children == children && a.extras == map[]
  }

  /** The nested gather as four objects whose classes declare no types. */
  ghost predicate Nested(root: Agent, inner: Agent, one: Agent, last: Agent) {
    && Made(one, UNTYPED_LEAF, "one", map[]) && Made(last, UNTYPED_LEAF, "last", map[])
    && Made(inner, UNTYPED_PARALLEL, "inner", map["a1" := one])
    && Made(root, UNTYPED_PARALLEL, "r", map["a" := inner, "b" := last])
    && root != inner && root != one && root != last && inner != one && inner != last && one != last
  }

  lemma NestedPaths(root: Agent, inner: Agent, one: Agent, last: Agent, p: Path)
    requires Nested(root, inner, one, last) && Walk(root, p).Some?
    ensures Plain(p)
    ensures || (p == [] && Walk(root, p).value == root)
            || (p == ["a"] && Walk(root, p).value == inner)
            || (p == ["a", "a1"] && Walk(root, p).value == one)
            || (p == ["b"] && Walk(root, p).value == last)
  {
    if |p| > 0 {
      var q := p[1..];
      assert p == [p[0]] + q;
      if p[0] == "a" {
        assert Walk(inner, q) == Walk(root, p);
        if |q| > 0 {
          assert q[0] == "a1" && Walk(one, q[1..]) == Walk(root, p);
          assert |q[1..]| == 0 && q == ["a1"];
        }
      } else {
        assert p[0] == "b" && Walk(last, q) == Walk(root, p);
        assert |q| == 0;
      }
    }
  }

  lemma NestedIsPlain(root: Agent, inner: Agent, one: Agent, last: Agent)
    requires Nested(root, inner, one, last)
    ensures Unshared(root) && Unambiguous(root)
  {
    forall p: Path | Walk(root, p).Some?
      ensures Plain(p)
    {
      NestedPaths(root, inner, one, last, p);
    }
    PlainIsUnambiguous(root);
    forall p: Path, q: Path | Walk(root, p).Some? && Walk(root, p) == Walk(root, q)
      ensures p == q
    {
      NestedPaths(root, inner, one, last, p);
      NestedPaths(root, inner, one, last, q);
    }
  }

  lemma NestedIsRepresented(root: Agent, inner: Agent, one: Agent, last: Agent)
    requires Nested(root, inner, one, last)
    ensures Represents(TypeNumber, root, R.NESTED)
  {
    assert Represents(TypeNumber, one, R.ONE) && Represents(TypeNumber, last, R.LAST);
    assert R.INNER.children[0].attr == "a1" && Attached(inner, R.INNER.children);
    assert Represents(TypeNumber, inner, R.INNER);
    assert R.NESTED.children[0].attr == "a" && R.NESTED.children[1].attr == "b";
    assert Attached(root, R.NESTED.children);
  }

  lemma NestedIsFreezable(root: Agent, inner: Agent, one: Agent, last: Agent)
    requires Nested(root, inner, one, last) && Ranked(root)
    ensures Freezable(root)
  {
    forall x | x in Below(root)
      ensures StorableAgent(x)
    {
      var p := BelowWalk(root, x);
      NestedPaths(root, inner, one, last, p);
    }
  }

  /** FREEZES BUT DOES NOT THAW: the nested gather, built of agents whose classes declare no types. It is
      unshared, named and without dots, and all its routing state can be stored. */
  method NestedDoesNotThaw(graph: seq<Recorded>) returns (root: Agent, r: Option<Agent>)
    requires graph == GraphOf(TypeNumber, T.Nodes(T.Steps(13, T.Start(R.NESTED))))
    ensures Ranked(root) && Represents(TypeNumber, root, R.NESTED)
    ensures Freezable(root) && Unshared(root) && Unambiguous(root) && root.decl.name != ""
    ensures r.None?
  {
    var one := new Agent(UNTYPED_LEAF, DECL.(name := "one"), SAME, map[], map[]);
    var last := new Agent(UNTYPED_LEAF, DECL.(name := "last"), SAME, map[], map[]);
    var inner := new Agent(UNTYPED_PARALLEL, DECL.(name := "inner"), SAME, map["a1" := one], map[]);
    root := new Agent(UNTYPED_PARALLEL, DECL.(name := "r"), SAME, map["a" := inner, "b" := last], map[]);
    assert Nested(root, inner, one, last);
    NestedIsPlain(root, inner, one, last);
    NestedIsRepresented(root, inner, one, last);
    NestedIsFreezable(root, inner, one, last);
    NestedTypeMissing(TypeNumber, root);
    r := FreezeThenThaw(root, graph);
  }
}
