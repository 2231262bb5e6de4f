/** What the input/output view of a graph shows. */
module IoGraphContents {
  import opened Options
  import opened MermaidForest
  import opened IoGraphs
  import opened Selections

  ghost predicate IsLeafPath(g: AgentGraph, p: Path) {
    exists i :: 0 <= i < |g.nodes| && g.nodes[i].path == p && g.nodes[i].kind == Leaf
  }

  ghost predicate IsCompositePath(g: AgentGraph, p: Path) {
    exists i :: 0 <= i < |g.nodes| && g.nodes[i].path == p && g.nodes[i].kind == Composite
  }

  /** `n` is the node of the path that was recorded last. */
  ghost predicate LastAt(nodes: seq<TypedNode>, p: Path, n: TypedNode) {
    exists i :: 0 <= i < |nodes| && nodes[i] == n && n.path == p && forall j :: i < j < |nodes| ==> nodes[j].path != p
  }

  lemma {:induction false} NodeAtIs(nodes: seq<TypedNode>, p: Path)
    ensures NodeAt(nodes, p).None? ==> forall i :: 0 <= i < |nodes| ==> nodes[i].path != p
    ensures NodeAt(nodes, p).Some? ==> LastAt(nodes, p, NodeAt(nodes, p).value)
  {
    if |nodes| > 0 {
      var init, n := nodes[..|nodes| - 1], |nodes| - 1;
      NodeAtIs(init, p);
      if nodes[n].path == p {
        assert LastAt(nodes, p, nodes[n]);
      } else if NodeAt(init, p).Some? {
        var i :| 0 <= i < |init| && init[i] == NodeAt(init, p).value && init[i].path == p &&
          forall j :: i < j < |init| ==> init[j].path != p;
        assert nodes[i] == init[i] && forall j :: i < j < |nodes| ==> j == n || nodes[j] == init[j];
      } else {
        assert forall i :: 0 <= i < n ==> nodes[i] == init[i];
      }
    }
  }

  lemma KindsAre(g: AgentGraph, p: Path)
    ensures p in PathsOfKind(g.nodes, Leaf) <==> IsLeafPath(g, p)
    ensures p in PathsOfKind(g.nodes, Composite) <==> IsCompositePath(g, p)
  {
  }

  // ---- Edges -----------------------------------------------------------------------------------

  /** The first of three names that is not empty. */
  predicate NamedBy(name: string, first: string, second: string, third: string) {
    (first != "" ==> name == first) &&
    (first == "" && second != "" ==> name == second) &&
    (first == "" && second == "" ==> name == third)
  }

  /** The longest proper prefix of the callee that is a composite; none if that is the root. */
  ghost predicate Encloses(g: AgentGraph, p: Path, q: Option<Path>) {
    if q.Some? then
      |q.value| < |p| && q.value == p[..|q.value|] && q.value != g.root && NearestIn(g, p, |q.value|)
    else forall i :: NearestIn(g, p, i) ==> p[..i] == g.root
  }

  ghost predicate NearestIn(g: AgentGraph, p: Path, i: int) {
    0 < i < |p| && IsCompositePath(g, p[..i]) && forall j :: i < j < |p| ==> !IsCompositePath(g, p[..j])
  }

  lemma NearestEncloses(g: AgentGraph, p: Path)
    ensures Encloses(g, p, Nearest(p, PathsOfKind(g.nodes, Composite), g.root))
  {
    hide Nearest;
    var composites := PathsOfKind(g.nodes, Composite);
    NearestIff(p, composites, g.root);
    forall i | 0 <= i <= |p|
      ensures p[..i] in composites <==> IsCompositePath(g, p[..i])
    {
      KindsAre(g, p[..i]);
    }
    forall i | NearestIn(g, p, i) && p[..i] != g.root
      ensures NearestAt(p, composites, g.root, i)
    {
    }
  }

  /** The view's edge of one recorded call. */
  ghost predicate ShowsEdge(g: AgentGraph, e: Edge, x: IoEdge) {
    && x.agentPath == e.callee && x.from == e.input.qualified && x.to == e.output.qualified
    && Encloses(g, e.callee, x.composite)
    && exists n: Option<TypedNode> ::
         && (if n.Some? then LastAt(g.nodes, e.callee, n.value)
             else forall i :: 0 <= i < |g.nodes| ==> g.nodes[i].path != e.callee)
         && NamedBy(x.className, e.className, if n.Some? then n.value.className else "",
                    if |e.callee| == 0 then "" else e.callee[|e.callee| - 1])
  }

  lemma LiveEdgeShows(g: AgentGraph, e: Edge)
    ensures ShowsEdge(g, e, LiveEdge(g, e))
  {
    hide Nearest;
    NodeAtIs(g.nodes, e.callee);
    NearestEncloses(g, e.callee);
    var n := NodeAt(g.nodes, e.callee);
    assert NamedBy(LiveEdge(g, e).className, e.className, if n.Some? then n.value.className else "",
                   if |e.callee| == 0 then "" else e.callee[|e.callee| - 1]);
  }

  /** `xs` show the calls of leaves among `edges`, in order. */
  ghost predicate ShowsLeaves(g: AgentGraph, edges: seq<Edge>, js: seq<nat>, xs: seq<IoEdge>) {
    && Ascending(js, |edges|) && |xs| == |js|
    && (forall i :: 0 <= i < |edges| ==> (i in js <==> IsLeafPath(g, edges[i].callee)))
    && forall k :: 0 <= k < |js| ==> ShowsEdge(g, edges[js[k]], xs[k])
  }

  lemma ShowsMore(g: AgentGraph, edges: seq<Edge>, e: Edge, js: seq<nat>, xs: seq<IoEdge>)
    requires ShowsLeaves(g, edges, js, xs)
    ensures if IsLeafPath(g, e.callee) then ShowsLeaves(g, edges + [e], js + [|edges|], xs + [LiveEdge(g, e)])
            else ShowsLeaves(g, edges + [e], js, xs)
  {
    hide Ascending, ShowsEdge, IsLeafPath, LiveEdge;
    AscendingGrows(js, |edges|);
    AscendingBelow(js, |edges|);
    LiveEdgeShows(g, e);
    var more := edges + [e];
    assert forall i :: 0 <= i < |edges| ==> more[i] == edges[i];
  }

  lemma LeafEdgesSnoc(g: AgentGraph, edges: seq<Edge>, e: Edge)
    ensures LiveLeafEdges(g, []) == [] && ShowsLeaves(g, [], [], [])
    ensures LiveLeafEdges(g, edges + [e]) ==
            if IsLeafPath(g, e.callee) then LiveLeafEdges(g, edges) + [LiveEdge(g, e)] else LiveLeafEdges(g, edges)
  {
    hide LiveEdge;
    KindsAre(g, e.callee);
    assert (edges + [e])[..|edges|] == edges;
  }

  lemma {:induction false} LeafEdgesShow(g: AgentGraph, edges: seq<Edge>) returns (js: seq<nat>)
    ensures ShowsLeaves(g, edges, js, LiveLeafEdges(g, edges))
  {
    hide ShowsLeaves, LiveLeafEdges, LiveEdge, IsLeafPath;
    if |edges| == 0 {
      js := [];
      LeafEdgesSnoc(g, [], Edge([], [], Type("", "", []), Type("", "", []), ""));
      assert edges == [];
    } else {
      var init, e := edges[..|edges| - 1], edges[|edges| - 1];
      assert edges == init + [e];
      js := LeafEdgesShow(g, init);
      ShowsMore(g, init, e, js, LiveLeafEdges(g, init));
      LeafEdgesSnoc(g, init, e);
      js := if IsLeafPath(g, e.callee) then js + [|init|] else js;
    }
  }

  /** The edge made up for a root that is the leaf `n`. */
  ghost predicate ShowsRoot(g: AgentGraph, rootName: string, n: TypedNode, x: IoEdge) {
    && LastAt(g.nodes, g.root, n) && n.kind == Leaf
    && x.agentPath == g.root && x.composite == None && x.from == n.input.qualified && x.to == n.output.qualified
    && x.className == if n.className != "" then n.className else rootName
  }

  lemma RootShown(g: AgentGraph, rootName: string)
    ensures var xs := LiveRootEdge(g, rootName);
      && |xs| <= 1
      && (|xs| == 1 <==> exists n :: LastAt(g.nodes, g.root, n) && n.kind == Leaf)
      && (|xs| == 1 ==> exists n :: ShowsRoot(g, rootName, n, xs[0]))
  {
    NodeAtIs(g.nodes, g.root);
    if n :| LastAt(g.nodes, g.root, n) && n.kind == Leaf {
      var i :| 0 <= i < |g.nodes| && g.nodes[i] == n && n.path == g.root;
      OneLast(g.nodes, g.root, n, NodeAt(g.nodes, g.root).value);
      assert ShowsRoot(g, rootName, n, LiveRootEdge(g, rootName)[0]);
    }
  }

  /** THE EDGES: every recorded call of a leaf in order, with its types, its class and the composite around
      it; and one more if the root itself is a leaf. */
  lemma EdgesShown(g: AgentGraph, rootName: string) returns (js: seq<nat>)
    ensures var xs := LiveView(g, rootName).edges;
      && |js| <= |xs| <= |js| + 1 && ShowsLeaves(g, g.edges, js, xs[..|js|])
      && (|xs| == |js| + 1 <==> exists n :: LastAt(g.nodes, g.root, n) && n.kind == Leaf)
      && (|xs| == |js| + 1 ==> exists n :: ShowsRoot(g, rootName, n, xs[|js|]))
  {
    js := LeafEdgesShow(g, g.edges);
    hide LiveLeafEdges, LiveRootEdge, LastAt, ShowsRoot, LiveTypes, ShowsEdge, IsLeafPath;
    RootShown(g, rootName);
    var leaves, root := LiveLeafEdges(g, g.edges), LiveRootEdge(g, rootName);
    assert (leaves + root)[..|js|] == leaves;
  }

  lemma OneLast(nodes: seq<TypedNode>, p: Path, m: TypedNode, n: TypedNode)
    requires LastAt(nodes, p, m) && LastAt(nodes, p, n)
    ensures m == n
  {
    var i :| 0 <= i < |nodes| && nodes[i] == m && forall k :: i < k < |nodes| ==> nodes[k].path != p;
    var j :| 0 <= j < |nodes| && nodes[j] == n && forall k :: j < k < |nodes| ==> nodes[k].path != p;
    assert nodes[i].path == p && nodes[j].path == p;
  }

  // ---- Types ------------------------------------------------------------------------------------------

  function Keys(ends: seq<(string, Side)>): seq<string> {
    seq(|ends|, i requires 0 <= i < |ends| => ends[i].0)
  }

  function RowKeys(rows: seq<TypeRow>): seq<string> {
    seq(|rows|, i requires 0 <= i < |rows| => rows[i].key)
  }

  /** Every row is of a type of the graph. */
  ghost predicate RowsOfTypes(g: AgentGraph, rows: seq<TypeRow>) {
    forall i :: 0 <= i < |rows| ==> RowOfType(g, rows[i])
  }

  ghost predicate RowOfType(g: AgentGraph, row: TypeRow) {
    exists t :: Occurs(g, t) && t.qualified == row.key && t.shortName == row.name && t.fields == row.fields
  }

  lemma {:induction false} FirstTypeIs(g: AgentGraph, edges: seq<Edge>, side: Side, key: string)
    requires forall e :: e in edges ==> e in g.edges
    ensures FirstType(edges, side, key).Some? ==>
      Occurs(g, FirstType(edges, side, key).value) && FirstType(edges, side, key).value.qualified == key
  {
    if |edges| > 0 {
      FirstTypeIs(g, edges[1..], side, key);
      assert edges[0] in g.edges;
      var i :| 0 <= i < |g.edges| && g.edges[i] == edges[0];
    }
  }

  lemma LiveTypeIs(g: AgentGraph, key: string, side: Side)
    ensures LiveType(g, key, side).Some? ==>
      Occurs(g, LiveType(g, key, side).value) && LiveType(g, key, side).value.qualified == key
  {
    FirstTypeIs(g, g.edges, side, key);
    NodeAtIs(g.nodes, g.root);
  }

  ghost predicate Found(g: AgentGraph, ends: seq<(string, Side)>) {
    forall i :: 0 <= i < |ends| ==> LiveType(g, ends[i].0, ends[i].1).Some?
  }

  lemma HasKeyIs(rows: seq<TypeRow>, key: string)
    ensures HasKey(rows, key) <==> key in RowKeys(rows)
  {
    if HasKey(rows, key) {
      var i :| 0 <= i < |rows| && rows[i].key == key;
      assert RowKeys(rows)[i] == key;
    }
  }

  lemma {:induction false} TypesAre(g: AgentGraph, ends: seq<(string, Side)>) returns (js: seq<nat>)
    requires Found(g, ends)
    ensures FirstOccurrences(Keys(ends), RowKeys(LiveTypes(g, ends)), js) && RowsOfTypes(g, LiveTypes(g, ends))
  {
    hide LiveType;
    if |ends| == 0 {
      js := [];
    } else {
      hide FirstOccurrences;
      var init, end := ends[..|ends| - 1], ends[|ends| - 1];
      var rows := LiveTypes(g, init);
      js := TypesAre(g, init);
      HasKeyIs(rows, end.0);
      LiveTypeIs(g, end.0, end.1);
      assert Keys(ends) == Keys(init) + [end.0];
      OnlyKeys(Keys(init), RowKeys(rows), js, end.0);
      FirstsGrow(Keys(init), end.0, RowKeys(rows), js);
      if end.0 !in Keys(init) {
        var t := LiveType(g, end.0, end.1).value;
        var row := TypeRow(end.0, t.shortName, t.fields);
        assert RowKeys(rows + [row]) == RowKeys(rows) + [end.0] && RowOfType(g, row);
        js := js + [|init|];
      }
    }
  }

  lemma OnlyKeys(s: seq<string>, d: seq<string>, js: seq<nat>, x: string)
    requires FirstOccurrences(s, d, js)
    ensures x in d <==> x in s
  {
    if x in d {
      var k :| 0 <= k < |d| && d[k] == x;
      assert FirstAt(s, d[k], js[k]);
    }
  }

  lemma {:induction false} FirstTypeThere(edges: seq<Edge>, side: Side, i: nat)
    requires i < |edges|
    ensures FirstType(edges, side, Typ(edges[i], side).qualified).Some?
  {
    if i > 0 && Typ(edges[0], side).qualified != Typ(edges[i], side).qualified {
      FirstTypeThere(edges[1..], side, i - 1);
    }
  }

  ghost predicate EndsFound(g: AgentGraph, x: IoEdge) {
    LiveType(g, x.from, From).Some? && LiveType(g, x.to, To).Some?
  }

  lemma {:induction false} AllEndsFound(g: AgentGraph, xs: seq<IoEdge>)
    requires forall k :: 0 <= k < |xs| ==> EndsFound(g, xs[k])
    ensures Found(g, Ends(xs))
  {
    hide LiveType;
    if |xs| > 0 {
      AllEndsFound(g, xs[..|xs| - 1]);
      assert EndsFound(g, xs[|xs| - 1]);
    }
  }

  lemma {:induction false} ViewEndsFound(g: AgentGraph, rootName: string)
    ensures Found(g, Ends(LiveView(g, rootName).edges))
  {
    hide ShowsLeaves, LiveType, Found, LiveLeafEdges;
    var xs := LiveView(g, rootName).edges;
    var js := EdgesShown(g, rootName);
    forall k | 0 <= k < |xs|
      ensures EndsFound(g, xs[k])
    {
      if k < |js| {
        LeafEndsFound(g, g.edges, js, xs[..|js|], k);
        assert xs[..|js|][k] == xs[k];
      } else {
        var n :| ShowsRoot(g, rootName, n, xs[|js|]);
        NodeAtIs(g.nodes, g.root);
        RootEndsFound(g, n);
      }
    }
    AllEndsFound(g, xs);
  }

  lemma LeafEndsFound(g: AgentGraph, edges: seq<Edge>, js: seq<nat>, xs: seq<IoEdge>, k: nat)
    requires edges == g.edges && ShowsLeaves(g, edges, js, xs) && k < |xs|
    ensures EndsFound(g, xs[k])
  {
    assert ShowsEdge(g, edges[js[k]], xs[k]);
    FirstTypeThere(g.edges, From, js[k]);
    FirstTypeThere(g.edges, To, js[k]);
  }

  lemma RootEndsFound(g: AgentGraph, n: TypedNode)
    requires LastAt(g.nodes, g.root, n)
    ensures LiveType(g, n.input.qualified, From).Some? && LiveType(g, n.output.qualified, To).Some?
  {
    NodeAtIs(g.nodes, g.root);
    var i :| 0 <= i < |g.nodes| && g.nodes[i] == n && n.path == g.root;
    OneLast(g.nodes, g.root, n, NodeAt(g.nodes, g.root).value);
  }

  /** THE TYPES: every type at an end of an edge has one row, in the order in which they first occur, with
      the class name and the fields of a type of the graph that has this qualified name. */
  lemma TypesShown(g: AgentGraph, rootName: string) returns (js: seq<nat>)
    ensures var view := LiveView(g, rootName);
      FirstOccurrences(Keys(Ends(view.edges)), RowKeys(view.types), js) && RowsOfTypes(g, view.types)
  {
    hide Found, LiveTypes, FirstOccurrences, RowsOfTypes;
    ViewEndsFound(g, rootName);
    js := TypesAre(g, Ends(LiveView(g, rootName).edges));
  }
}
