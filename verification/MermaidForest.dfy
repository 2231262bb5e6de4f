/** The order in which the Mermaid view emits nodes: composites nest by path prefix. */
module MermaidForest {
  import opened Options

  /** A dotted path, split at its dots. */
  type Path = seq<string>

  datatype Kind = Leaf | Composite

  datatype Node = Node(path: Path, kind: Kind)

  datatype Graph = Graph(nodes: seq<Node>, root: Path)

  // ---- Deduplication ---------------------------------------------------------------------------

  ghost predicate DistinctPaths(nodes: seq<Node>) {
    forall i, j :: 0 <= i < j < |nodes| ==> nodes[i].path != nodes[j].path
  }

  function Paths(nodes: seq<Node>): set<Path> {
    set n | n in nodes :: n.path
  }

  /** The first node of every path, in order. */
  function FirstNodes(nodes: seq<Node>): seq<Node> {
    if |nodes| == 0 then []
    else
      var init, last := nodes[..|nodes| - 1], nodes[|nodes| - 1];
      if last.path in Paths(init) then FirstNodes(init) else FirstNodes(init) + [last]
  }

  lemma PathsSnoc(nodes: seq<Node>, n: Node)
    ensures Paths(nodes + [n]) == Paths(nodes) + {n.path}
  {
    assert forall m :: m in nodes + [n] <==> m in nodes || m == n;
  }

  lemma {:induction false} FirstNodesAre(nodes: seq<Node>)
    ensures DistinctPaths(FirstNodes(nodes)) && Paths(FirstNodes(nodes)) == Paths(nodes)
    ensures forall n :: n in FirstNodes(nodes) ==> n in nodes
  {
    if |nodes| > 0 {
      var init, last := nodes[..|nodes| - 1], nodes[|nodes| - 1];
      var out := FirstNodes(init);
      FirstNodesAre(init);
      PathsSnoc(init, last);
      PathsSnoc(out, last);
      assert nodes == init + [last];
      assert forall j :: 0 <= j < |out| ==> out[j] in out && out[j].path in Paths(out);
    }
  }

  /** `_dedupe_nodes`. */
  method Dedupe(nodes: seq<Node>) returns (out: seq<Node>)
    ensures out == FirstNodes(nodes)
    ensures DistinctPaths(out) && Paths(out) == Paths(nodes)
    ensures forall n :: n in out ==> n in nodes
  {
    out := [];
    var seen: set<Path> := {};
    for i := 0 to |nodes|
      invariant out == FirstNodes(nodes[..i]) && seen == Paths(nodes[..i])
    {
      assert nodes[..i + 1][..i] == nodes[..i];
      assert nodes[..i + 1] == nodes[..i] + [nodes[i]];
      if nodes[i].path !in seen {
        seen, out := seen + {nodes[i].path}, out + [nodes[i]];
      }
    }
    assert nodes[..|nodes|] == nodes;
    FirstNodesAre(nodes);
  }

  // ---- The parent of a path ----------------------------------------------------------------------

  function Composites(nodes: seq<Node>): set<Path> {
    set n | n in nodes && n.kind == Composite :: n.path
  }

  /** The longest prefix of length `i` or less that is a composite; the root counts as none. */
  function NearestFrom(p: Path, i: nat, composites: set<Path>, root: Path): (q: Option<Path>)
    requires i < |p| || |p| == 0
    ensures q.Some? ==>
      |q.value| <= i && |q.value| < |p| && q.value == p[..|q.value|] && q.value in composites && q.value != root
  {
    if i == 0 || |p| == 0 then None
    else if p[..i] in composites then (if p[..i] == root then None else Some(p[..i]))
    else NearestFrom(p, i - 1, composites, root)
  }

  function Nearest(p: Path, composites: set<Path>, root: Path): Option<Path> {
    if |p| == 0 then None else NearestFrom(p, |p| - 1, composites, root)
  }

  /** The longest proper prefix that is a composite has length `i`, and is not the root. */
  ghost predicate NearestAt(p: Path, composites: set<Path>, root: Path, i: int) {
    && 0 < i < |p| && p[..i] in composites && p[..i] != root
    && forall j :: i < j < |p| ==> p[..j] !in composites
  }

  lemma {:induction false} NearestFromIs(p: Path, i: nat, composites: set<Path>, root: Path)
    requires i < |p| && forall j :: i < j < |p| ==> p[..j] !in composites
    ensures var q := NearestFrom(p, i, composites, root);
      && (q.Some? ==> q.value == p[..|q.value|] && NearestAt(p, composites, root, |q.value|))
      && (q.None? ==> forall j :: !NearestAt(p, composites, root, j))
  {
    if i > 0 && p[..i] !in composites {
      NearestFromIs(p, i - 1, composites, root);
    }
  }

  /** THE NEAREST COMPOSITE of a path is its longest proper prefix that is one; if that is the root, or
      there is none, it has none. */
  lemma NearestIff(p: Path, composites: set<Path>, root: Path)
    ensures var q := Nearest(p, composites, root);
      && (q.Some? ==> q.value == p[..|q.value|] && NearestAt(p, composites, root, |q.value|))
      && (q.None? ==> forall j :: !NearestAt(p, composites, root, j))
  {
    if |p| > 0 {
      NearestFromIs(p, |p| - 1, composites, root);
    }
  }

  /** `_nearest_composite_path`. */
  method NearestCompositePath(p: Path, composites: set<Path>, root: Path) returns (q: Option<Path>)
    ensures q == Nearest(p, composites, root)
  {
    var i := |p| - 1;
    while i > 0
      invariant -1 <= i < |p| || |p| == 0
      invariant i >= 0 ==> Nearest(p, composites, root) == NearestFrom(p, i, composites, root)
      invariant i < 0 ==> |p| == 0
    {
      if p[..i] in composites {
        return if p[..i] == root then None else Some(p[..i]);
      }
      i := i - 1;
    }
    q := None;
  }

  function Parent(g: Graph, p: Path): Option<Path> {
    Nearest(p, Composites(g.nodes), g.root)
  }

  /** Paths of the nodes with this parent, in node order; the root is nobody's child. */
  function Children(g: Graph, nodes: seq<Node>, parent: Option<Path>): seq<Path> {
    if |nodes| == 0 then []
    else
      var init, last := Children(g, nodes[..|nodes| - 1], parent), nodes[|nodes| - 1].path;
      if last != g.root && Parent(g, last) == parent then init + [last] else init
  }

  ghost predicate IsChild(g: Graph, parent: Option<Path>, c: Path) {
    c in Paths(g.nodes) && c != g.root && Parent(g, c) == parent
  }

  lemma {:induction false} ChildrenAre(g: Graph, nodes: seq<Node>, parent: Option<Path>)
    ensures forall c :: c in Children(g, nodes, parent) <==> c in Paths(nodes) && c != g.root && Parent(g, c) == parent
    ensures |Children(g, nodes, parent)| <= |nodes|
  {
    if |nodes| > 0 {
      var init := nodes[..|nodes| - 1];
      ChildrenAre(g, init, parent);
      assert nodes == init + [nodes[|nodes| - 1]];
      assert forall c :: c in Paths(nodes) <==> c in Paths(init) || c == nodes[|nodes| - 1].path;
    }
  }

  lemma {:induction false} ChildrenDistinct(g: Graph, nodes: seq<Node>, parent: Option<Path>)
    requires DistinctPaths(nodes)
    ensures NoRepeat(Children(g, nodes, parent))
  {
    if |nodes| > 0 {
      var init := nodes[..|nodes| - 1];
      ChildrenDistinct(g, init, parent);
      ChildrenAre(g, init, parent);
      assert nodes[|nodes| - 1].path !in Paths(init);
    }
  }

  ghost predicate NoRepeat(s: seq<Path>) {
    forall i, j :: 0 <= i < j < |s| ==> s[i] != s[j]
  }

  // ---- Emission ------------------------------------------------------------------------------------

  function LongestOf(nodes: seq<Node>): (b: nat)
    ensures forall n :: n in nodes ==> |n.path| <= b
  {
    if |nodes| == 0 then 0
    else
      var b, l := LongestOf(nodes[..|nodes| - 1]), |nodes[|nodes| - 1].path|;
      if b < l then l else b
  }

  /** The subgraph of a composite, or the single node of a leaf. */
  function Emit(g: Graph, p: Path): seq<Path>
    requires p in Paths(g.nodes)
    decreases LongestOf(g.nodes) - |p|, 1, 0
  {
    ChildrenAre(g, g.nodes, Some(p));
    [p] + if p in Composites(g.nodes) then EmitAll(g, Children(g, g.nodes, Some(p)), |p|) else []
  }

  /** Several siblings, all longer than `floor`. */
  function EmitAll(g: Graph, cs: seq<Path>, floor: nat): seq<Path>
    requires forall c :: c in cs ==> c in Paths(g.nodes) && |c| > floor
    decreases LongestOf(g.nodes) - floor, 0, |cs|
  {
    if |cs| == 0 then [] else EmitAll(g, cs[..|cs| - 1], floor) + Emit(g, cs[|cs| - 1])
  }

  /** Root first, then the nodes below no composite other than the root. */
  function Emission(g: Graph): seq<Path>
    requires forall n :: n in g.nodes ==> |n.path| >= 1
  {
    ChildrenAre(g, g.nodes, None);
    (if g.root in Paths(g.nodes) then [g.root] else []) + EmitAll(g, Children(g, g.nodes, None), 0)
  }

  // ---- Who is emitted where --------------------------------------------------------------------------

  /** `p` is `x`, its parent, its parent's parent, … */
  ghost predicate OnChain(g: Graph, p: Path, x: Path)
    decreases |x|
  {
    p == x || (Parent(g, x).Some? && OnChain(g, p, Parent(g, x).value))
  }

  lemma {:induction false} ChainShorter(g: Graph, p: Path, x: Path)
    requires OnChain(g, p, x)
    ensures |p| <= |x| && (p != x ==> |p| < |x|)
    decreases |x|
  {
    if p != x {
      ChainShorter(g, p, Parent(g, x).value);
    }
  }

  lemma {:induction false} ChainUp(g: Graph, c: Path, x: Path, p: Path)
    requires OnChain(g, c, x) && Parent(g, c) == Some(p)
    ensures OnChain(g, p, x)
    decreases |x|
  {
    if c != x {
      ChainUp(g, c, Parent(g, x).value, p);
    }
  }

  /** Below an ancestor there is one child of it on the way down to `x`. */
  lemma {:induction false} ChildOnChain(g: Graph, p: Path, x: Path) returns (c: Path)
    requires OnChain(g, p, x) && p != x && x in Paths(g.nodes) && x != g.root
    ensures IsChild(g, Some(p), c) && OnChain(g, c, x)
    decreases |x|
  {
    var q := Parent(g, x).value;
    if q == p {
      c := x;
    } else {
      c := ChildOnChain(g, p, q);
    }
  }

  lemma {:induction false} TopOfChain(g: Graph, x: Path) returns (c: Path)
    requires x in Paths(g.nodes) && x != g.root
    ensures IsChild(g, None, c) && OnChain(g, c, x)
    decreases |x|
  {
    if Parent(g, x).None? {
      c := x;
    } else {
      c := TopOfChain(g, Parent(g, x).value);
    }
  }

  /** Two siblings are never on one chain. */
  lemma {:induction false} SiblingsApart(g: Graph, parent: Option<Path>, c: Path, d: Path, x: Path)
    requires IsChild(g, parent, c) && IsChild(g, parent, d) && OnChain(g, c, x) && OnChain(g, d, x)
    ensures c == d
    decreases |x|
  {
    if c == x && d != x {
      ParentNotBelow(g, parent, d);
    } else if c != x && d == x {
      ParentNotBelow(g, parent, c);
    } else if c != x {
      SiblingsApart(g, parent, c, d, Parent(g, x).value);
    }
  }

  lemma ParentNotBelow(g: Graph, parent: Option<Path>, c: Path)
    requires Parent(g, c) == parent
    ensures parent.Some? ==> !OnChain(g, c, parent.value)
  {
    if parent.Some? && OnChain(g, c, parent.value) {
      ChainShorter(g, c, parent.value);
    }
  }

  lemma {:induction false} EmitIsChain(g: Graph, p: Path, x: Path)
    requires p in Paths(g.nodes) && p != g.root
    ensures x in Emit(g, p) <==> x in Paths(g.nodes) && x != g.root && OnChain(g, p, x)
    decreases LongestOf(g.nodes) - |p|, 1, 0
  {
    ChildrenAre(g, g.nodes, Some(p));
    var cs := Children(g, g.nodes, Some(p));
    if p in Composites(g.nodes) {
      EmitAllIsChain(g, Some(p), cs, |p|, x);
    }
    if x != p && x in Paths(g.nodes) && x != g.root && OnChain(g, p, x) {
      var c := ChildOnChain(g, p, x);
      assert c in cs && p in Composites(g.nodes);
    }
    if x in Emit(g, p) && x != p {
      var c :| c in cs && OnChain(g, c, x);
      ChainUp(g, c, x, p);
    }
  }

  lemma SomeOnChain(g: Graph, cs: seq<Path>, x: Path)
    requires |cs| > 0
    ensures (exists c :: c in cs && OnChain(g, c, x)) <==>
            (exists c :: c in cs[..|cs| - 1] && OnChain(g, c, x)) || OnChain(g, cs[|cs| - 1], x)
  {
    var init, last := cs[..|cs| - 1], cs[|cs| - 1];
    assert cs == init + [last];
    if c :| c in cs && OnChain(g, c, x) {
      assert c in init || c == last;
    }
  }

  lemma {:induction false} EmitAllIsChain(g: Graph, parent: Option<Path>, cs: seq<Path>, floor: nat, x: Path)
    requires forall c :: c in cs ==> c in Paths(g.nodes) && |c| > floor
    requires forall c :: c in cs ==> IsChild(g, parent, c)
    ensures x in EmitAll(g, cs, floor) <==>
            x in Paths(g.nodes) && x != g.root && exists c :: c in cs && OnChain(g, c, x)
    decreases LongestOf(g.nodes) - floor, 0, |cs|
  {
    if |cs| > 0 {
      var init, last := cs[..|cs| - 1], cs[|cs| - 1];
      assert last in cs && IsChild(g, parent, last);
      EmitAllIsChain(g, parent, init, floor, x);
      EmitIsChain(g, last, x);
      assert EmitAll(g, cs, floor) == EmitAll(g, init, floor) + Emit(g, last);
      SomeOnChain(g, cs, x);
    }
  }

  lemma {:induction false} EmitOnce(g: Graph, p: Path)
    requires p in Paths(g.nodes) && p != g.root && DistinctPaths(g.nodes)
    ensures NoRepeat(Emit(g, p))
    decreases LongestOf(g.nodes) - |p|, 1, 0
  {
    ChildrenAre(g, g.nodes, Some(p));
    ChildrenDistinct(g, g.nodes, Some(p));
    var cs := Children(g, g.nodes, Some(p));
    if p in Composites(g.nodes) {
      EmitAllOnce(g, Some(p), cs, |p|);
      NotBelowItself(g, p, cs);
      AppendNoRepeat([p], EmitAll(g, cs, |p|));
    }
  }

  lemma NotBelowItself(g: Graph, p: Path, cs: seq<Path>)
    requires forall c :: c in cs ==> c in Paths(g.nodes) && |c| > |p| && IsChild(g, Some(p), c)
    ensures p !in EmitAll(g, cs, |p|)
  {
    EmitAllIsChain(g, Some(p), cs, |p|, p);
    forall c | c in cs
      ensures !OnChain(g, c, p)
    {
      ParentNotBelow(g, Some(p), c);
    }
  }

  lemma {:induction false} EmitAllOnce(g: Graph, parent: Option<Path>, cs: seq<Path>, floor: nat)
    requires DistinctPaths(g.nodes) && NoRepeat(cs)
    requires forall c :: c in cs ==> c in Paths(g.nodes) && |c| > floor
    requires forall c :: c in cs ==> IsChild(g, parent, c)
    ensures NoRepeat(EmitAll(g, cs, floor))
    decreases LongestOf(g.nodes) - floor, 0, |cs|
  {
    if |cs| > 0 {
      var init, last := cs[..|cs| - 1], cs[|cs| - 1];
      assert last in cs && IsChild(g, parent, last);
      EmitAllOnce(g, parent, init, floor);
      EmitOnce(g, last);
      forall x | x in Emit(g, last)
        ensures x !in EmitAll(g, init, floor)
      {
        EmitIsChain(g, last, x);
        EmitAllIsChain(g, parent, init, floor, x);
        forall c | c in init
          ensures !OnChain(g, c, x)
        {
          if OnChain(g, c, x) {
            SiblingsApart(g, parent, c, last, x);
          }
        }
      }
      AppendNoRepeat(EmitAll(g, init, floor), Emit(g, last));
    }
  }

  lemma AppendNoRepeat(a: seq<Path>, b: seq<Path>)
    requires NoRepeat(a) && NoRepeat(b) && forall x :: x in b ==> x !in a
    ensures NoRepeat(a + b)
  {
    forall i, j | 0 <= i < j < |a + b|
      ensures (a + b)[i] != (a + b)[j]
    {
      if i < |a| <= j {
        assert (a + b)[j] in b && (a + b)[i] in a;
      }
    }
  }

  /** A FOREST, COVERED ONCE. Every distinct node path is emitted, and none twice: nothing is left for
      the pass over orphans. */
  lemma EmittedExactlyOnce(g: Graph)
    requires DistinctPaths(g.nodes) && forall n :: n in g.nodes ==> |n.path| >= 1
    ensures NoRepeat(Emission(g))
    ensures forall x :: x in Emission(g) <==> x in Paths(g.nodes)
  {
    var cs := Children(g, g.nodes, None);
    ChildrenAre(g, g.nodes, None);
    ChildrenDistinct(g, g.nodes, None);
    EmitAllOnce(g, None, cs, 0);
    EmitAllIsChain(g, None, cs, 0, g.root);
    var head := if g.root in Paths(g.nodes) then [g.root] else [];
    AppendNoRepeat(head, EmitAll(g, cs, 0));
    forall x
      ensures x in Emission(g) <==> x in Paths(g.nodes)
    {
      EmitAllIsChain(g, None, cs, 0, x);
      if x in Paths(g.nodes) && x != g.root {
        var c := TopOfChain(g, x);
        assert c in cs;
      }
    }
  }

  // ---- Nesting ----------------------------------------------------------------------------------------

  lemma LastSibling(g: Graph, init: seq<Path>, last: Path, floor: nat)
    requires forall d :: d in init + [last] ==> d in Paths(g.nodes) && |d| > floor
    ensures (forall d :: d in init ==> d in Paths(g.nodes) && |d| > floor) && last in Paths(g.nodes)
    ensures EmitAll(g, init + [last], floor) == EmitAll(g, init, floor) + Emit(g, last)
  {
    hide Emit;
    assert last in init + [last] && forall d :: d in init ==> d in init + [last];
    assert (init + [last])[..|init|] == init;
  }

  /** What one of several siblings emits is a block of what all emit. */
  lemma {:induction false} BlockOfSibling(g: Graph, cs: seq<Path>, floor: nat, c: Path)
    returns (a: seq<Path>, b: seq<Path>)
    requires (forall d :: d in cs ==> d in Paths(g.nodes) && |d| > floor) && c in cs
    ensures EmitAll(g, cs, floor) == a + Emit(g, c) + b
  {
    hide Emit, EmitAll;
    var init, last := cs[..|cs| - 1], cs[|cs| - 1];
    assert cs == init + [last];
    LastSibling(g, init, last, floor);
    if last == c {
      a, b := EmitAll(g, init, floor), [];
      assert a + Emit(g, c) + [] == a + Emit(g, c);
    } else {
      a, b := BlockOfSibling(g, init, floor, c);
      AfterBlock(a, Emit(g, c), b, Emit(g, last));
      b := b + Emit(g, last);
    }
  }

  lemma AfterBlock(a: seq<Path>, x: seq<Path>, b: seq<Path>, y: seq<Path>)
    ensures a + x + b + y == a + x + (b + y)
  {
  }

  lemma BlockInBlock(a: seq<Path>, x: seq<Path>, b: seq<Path>, c: seq<Path>, y: seq<Path>, d: seq<Path>)
    requires x == c + y + d
    ensures a + x + b == (a + c) + y + (d + b)
  {
  }

  lemma {:induction false} EmittedAsBlock(g: Graph, p: Path) returns (a: seq<Path>, b: seq<Path>)
    requires p in Paths(g.nodes) && p != g.root && forall n :: n in g.nodes ==> |n.path| >= 1
    ensures Emission(g) == a + Emit(g, p) + b
    decreases |p|
  {
    hide Emit, EmitAll, Nearest;
    var up := Parent(g, p);
    ChildrenAre(g, g.nodes, up);
    var cs := Children(g, g.nodes, up);
    if up.None? {
      a, b := BlockOfSibling(g, cs, 0, p);
      var head := if g.root in Paths(g.nodes) then [g.root] else [];
      BlockInBlock(head, EmitAll(g, cs, 0), [], a, Emit(g, p), b);
      assert Emission(g) == head + EmitAll(g, cs, 0) + [];
      a, b := head + a, b + [];
    } else {
      var q := up.value;
      ParentIsNode(g, p);
      var a1, b1 := EmittedAsBlock(g, q);
      EmitOfComposite(g, q, cs);
      var a2, b2 := BlockOfSibling(g, cs, |q|, p);
      BlockInBlock([q], EmitAll(g, cs, |q|), [], a2, Emit(g, p), b2);
      assert Emit(g, q) == [q] + EmitAll(g, cs, |q|) + [];
      BlockInBlock(a1, Emit(g, q), b1, [q] + a2, Emit(g, p), b2 + []);
      a, b := a1 + ([q] + a2), (b2 + []) + b1;
    }
  }

  lemma ParentIsNode(g: Graph, p: Path)
    requires Parent(g, p).Some?
    ensures var q := Parent(g, p).value;
      q in Composites(g.nodes) && q in Paths(g.nodes) && q != g.root && |q| < |p|
      && forall c :: c in Children(g, g.nodes, Some(q)) ==> c in Paths(g.nodes) && |c| > |q|
  {
    ChildrenAre(g, g.nodes, Parent(g, p));
  }

  lemma EmitOfComposite(g: Graph, q: Path, cs: seq<Path>)
    requires q in Paths(g.nodes) && q in Composites(g.nodes) && cs == Children(g, g.nodes, Some(q))
    requires forall c :: c in cs ==> c in Paths(g.nodes) && |c| > |q|
    ensures Emit(g, q) == [q] + EmitAll(g, cs, |q|)
  {
  }

  /** NESTING. What is emitted for a node is one block, the node first, and holds exactly the paths whose
      chain of nearest composites leads to it. */
  lemma NestedAsBlock(g: Graph, p: Path) returns (a: seq<Path>, block: seq<Path>, b: seq<Path>)
    requires p in Paths(g.nodes) && p != g.root && forall n :: n in g.nodes ==> |n.path| >= 1
    ensures Emission(g) == a + block + b && |block| >= 1 && block[0] == p
    ensures forall x :: x in block <==> x in Paths(g.nodes) && x != g.root && OnChain(g, p, x)
  {
    a, b := EmittedAsBlock(g, p);
    block := Emit(g, p);
    forall x
      ensures x in block <==> x in Paths(g.nodes) && x != g.root && OnChain(g, p, x)
    {
      EmitIsChain(g, p, x);
    }
  }

  // ---- The renderer -----------------------------------------------------------------------------------

  type ByParent = map<Option<Path>, seq<Path>>

  ghost predicate Grouped(m: ByParent, g: Graph, nodes: seq<Node>) {
    forall p :: (if p in m then m[p] else []) == Children(g, nodes, p)
  }

  method GroupChildren(g: Graph) returns (m: ByParent)
    ensures Grouped(m, g, g.nodes)
  {
    m := map[];
    for i := 0 to |g.nodes|
      invariant Grouped(m, g, g.nodes[..i])
    {
      assert g.nodes[..i + 1][..i] == g.nodes[..i];
      var p := g.nodes[i].path;
      if p != g.root {
        var parent := NearestCompositePath(p, Composites(g.nodes), g.root);
        m := m[parent := (if parent in m then m[parent] else []) + [p]];
      }
    }
    assert g.nodes[..|g.nodes|] == g.nodes;
  }

  lemma EmitBelow(g: Graph, p: Path, below: seq<Path>)
    requires p in Paths(g.nodes) && below == Children(g, g.nodes, Some(p))
    ensures forall c :: c in below ==> c in Paths(g.nodes) && |c| > |p|
    ensures Emit(g, p) == if p in Composites(g.nodes) then [p] + EmitAll(g, below, |p|) else [p]
  {
    ChildrenAre(g, g.nodes, Some(p));
  }

  lemma AfterHead(lines: seq<Path>, p: Path, rest: seq<Path>)
    ensures lines + ([p] + rest) == lines + [p] + rest
  {
  }

  /** `_emit_subgraph`, or `_emit_node` for a leaf. */
  method EmitNode(g: Graph, m: ByParent, p: Path, lines: seq<Path>) returns (lines': seq<Path>)
    requires Grouped(m, g, g.nodes) && p in Paths(g.nodes)
    ensures lines' == lines + Emit(g, p)
    decreases LongestOf(g.nodes) - |p|, 1, 0
  {
    var below := if Some(p) in m then m[Some(p)] else [];
    assert below == Children(g, g.nodes, Some(p));
    EmitBelow(g, p, below);
    lines' := lines + [p];
    if p in Composites(g.nodes) {
      AfterHead(lines, p, EmitAll(g, below, |p|));
      lines' := EmitChildren(g, m, below, |p|, lines');
    }
  }

  method EmitChildren(g: Graph, m: ByParent, cs: seq<Path>, floor: nat, lines: seq<Path>) returns (lines': seq<Path>)
    requires Grouped(m, g, g.nodes) && forall c :: c in cs ==> c in Paths(g.nodes) && |c| > floor
    ensures lines' == lines + EmitAll(g, cs, floor)
    decreases LongestOf(g.nodes) - floor, 0, |cs|
  {
    lines' := lines;
    for i := 0 to |cs|
      invariant lines' == lines + EmitAll(g, cs[..i], floor)
    {
      OneMoreSibling(g, cs, i, floor, lines);
      lines' := EmitNode(g, m, cs[i], lines');
    }
    assert cs[..|cs|] == cs;
  }

  lemma OneMoreSibling(g: Graph, cs: seq<Path>, i: nat, floor: nat, lines: seq<Path>)
    requires i < |cs| && forall c :: c in cs ==> c in Paths(g.nodes) && |c| > floor
    ensures cs[i] in cs
    ensures lines + EmitAll(g, cs[..i + 1], floor) == lines + EmitAll(g, cs[..i], floor) + Emit(g, cs[i])
  {
    assert cs[..i + 1][..i] == cs[..i];
  }

  /** The pass over nodes that no composite has rendered finds none. */
  method OrphanPass(nodes: seq<Node>, root: Path, lines: seq<Path>) returns (all: seq<Path>)
    ensures all == lines
  {
    var rendered := {root} + Composites(nodes) + set n | n in nodes && n.kind == Leaf :: n.path;
    all := lines;
    for i := 0 to |nodes|
      invariant all == lines
    {
      var p := nodes[i].path;
      assert nodes[i].kind == Leaf || nodes[i].kind == Composite;
      if p !in rendered {
        all := all + [p];
      }
    }
  }

  /** The node lines of `_render_mermaid`, orphans included. */
  method RenderNodes(raw: seq<Node>, root: Path) returns (lines: seq<Path>)
    requires forall n :: n in raw ==> |n.path| >= 1
    ensures NoRepeat(lines)
    ensures forall x :: x in lines <==> x in Paths(raw)
  {
    var nodes := Dedupe(raw);
    var g := Graph(nodes, root);
    var m := GroupChildren(g);
    lines := if root in Paths(nodes) then [root] else [];
    ChildrenAre(g, nodes, None);
    lines := EmitChildren(g, m, if None in m then m[None] else [], 0, lines);
    EmittedExactlyOnce(g);
    assert lines == Emission(g);
    lines := OrphanPass(nodes, root, lines);
  }
}
