/** The input/output view of a traced graph, rendered from live types and from its JSON. */
module IoGraphs {
  import opened Options
  import opened MermaidForest

  type FieldInfo = int

  /** A message type: its `module.qualname`, its class name and its described fields. */
  datatype Type = Type(qualified: string, shortName: string, fields: seq<FieldInfo>)

  datatype TypedNode = TypedNode(path: Path, input: Type, output: Type, kind: Kind, className: string)

  datatype Edge = Edge(caller: Path, callee: Path, input: Type, output: Type, className: string)

  datatype AgentGraph = AgentGraph(root: Path, nodes: seq<TypedNode>, edges: seq<Edge>)

  datatype JsonNode = JsonNode(
    path: Path, input: string, output: string, kind: Kind, className: string,
    inputFields: seq<FieldInfo>, outputFields: seq<FieldInfo>)

  datatype JsonEdge = JsonEdge(caller: Path, callee: Path, input: string, output: string, className: string)

  datatype JsonGraph = JsonGraph(root: Path, nodes: seq<JsonNode>, edges: seq<JsonEdge>)

  function NodeJson(n: TypedNode): JsonNode {
    JsonNode(n.path, n.input.qualified, n.output.qualified, n.kind, n.className, n.input.fields, n.output.fields)
  }

  function EdgeJson(e: Edge): JsonEdge {
    JsonEdge(e.caller, e.callee, e.input.qualified, e.output.qualified, e.className)
  }

  /** `to_json`. */
  function ToJson(g: AgentGraph): JsonGraph {
    JsonGraph(g.root, seq(|g.nodes|, i requires 0 <= i < |g.nodes| => NodeJson(g.nodes[i])),
      seq(|g.edges|, i requires 0 <= i < |g.edges| => EdgeJson(g.edges[i])))
  }

  // ---- Parts both views have ---------------------------------------------------------------------

  datatype Side = From | To

  datatype IoEdge = IoEdge(agentPath: Path, className: string, from: string, to: string, composite: Option<Path>)

  datatype TypeRow = TypeRow(key: string, name: string, fields: seq<FieldInfo>)

  /** `composites` stands for the arguments of `_build_composites`, one helper used by both views:
      the composite paths, the leaf paths and the composites' class names. */
  datatype IoGraph = IoGraph(
    root: Path, types: seq<TypeRow>, edges: seq<IoEdge>, composites: (set<Path>, set<Path>, map<Path, string>))

  function Either(a: string, b: string): string {
    if a != "" then a else b
  }

  /** `qualname.rsplit(".", 1)[-1]`. */
  function AfterDot(s: string): string {
    if |s| == 0 || s[|s| - 1] == '.' then "" else AfterDot(s[..|s| - 1]) + [s[|s| - 1]]
  }

  function LastName(p: Path): string {
    if |p| == 0 then "" else p[|p| - 1]
  }

  /** The ends of the edges in the order in which they are looked up. */
  function Ends(edges: seq<IoEdge>): seq<(string, Side)> {
    if |edges| == 0 then []
    else Ends(edges[..|edges| - 1]) + [(edges[|edges| - 1].from, From), (edges[|edges| - 1].to, To)]
  }

  predicate HasKey(rows: seq<TypeRow>, key: string) {
    exists i :: 0 <= i < |rows| && rows[i].key == key
  }

  // ---- The live view --------------------------------------------------------------------------------

  function PathsOfKind(nodes: seq<TypedNode>, kind: Kind): set<Path> {
    set n | n in nodes && n.kind == kind :: n.path
  }

  /** `{n.path: n for n in nodes}`: the last node of a path. */
  function NodeAt(nodes: seq<TypedNode>, p: Path): Option<TypedNode> {
    if |nodes| == 0 then None
    else if nodes[|nodes| - 1].path == p then Some(nodes[|nodes| - 1])
    else NodeAt(nodes[..|nodes| - 1], p)
  }

  function ClassNames(nodes: seq<TypedNode>): map<Path, string> {
    if |nodes| == 0 then map[]
    else
      var init, last := ClassNames(nodes[..|nodes| - 1]), nodes[|nodes| - 1];
      if last.kind == Composite then init[last.path := Either(last.className, "Composite")] else init
  }

  function LiveEdge(g: AgentGraph, e: Edge): IoEdge {
    var n := NodeAt(g.nodes, e.callee);
    IoEdge(e.callee, Either(e.className, Either(if n.Some? then n.value.className else "", LastName(e.callee))),
      e.input.qualified, e.output.qualified, Nearest(e.callee, PathsOfKind(g.nodes, Composite), g.root))
  }

  function LiveLeafEdges(g: AgentGraph, edges: seq<Edge>): seq<IoEdge> {
    if |edges| == 0 then []
    else
      var init, last := LiveLeafEdges(g, edges[..|edges| - 1]), edges[|edges| - 1];
      if last.callee in PathsOfKind(g.nodes, Leaf) then init + [LiveEdge(g, last)] else init
  }

  /** A root that is a leaf has no edge of its own; one is made up. The name of a path is not split. */
  function LiveRootEdge(g: AgentGraph, rootName: string): seq<IoEdge> {
    var n := NodeAt(g.nodes, g.root);
    if n.Some? && n.value.kind == Leaf then
      [IoEdge(g.root, Either(n.value.className, rootName), n.value.input.qualified, n.value.output.qualified, None)]
    else []
  }

  function Typ(e: Edge, side: Side): Type {
    if side == From then e.input else e.output
  }

  function FirstType(edges: seq<Edge>, side: Side, key: string): Option<Type> {
    if |edges| == 0 then None
    else if Typ(edges[0], side).qualified == key then Some(Typ(edges[0], side))
    else FirstType(edges[1..], side, key)
  }

  function LiveType(g: AgentGraph, key: string, side: Side): Option<Type> {
    var t := FirstType(g.edges, side, key);
    var n := NodeAt(g.nodes, g.root);
    if t.Some? || n.None? then t
    else if n.value.input.qualified == key then Some(n.value.input)
    else if n.value.output.qualified == key then Some(n.value.output)
    else None
  }

  function LiveTypes(g: AgentGraph, ends: seq<(string, Side)>): seq<TypeRow> {
    if |ends| == 0 then []
    else
      var rows, end := LiveTypes(g, ends[..|ends| - 1]), ends[|ends| - 1];
      var t := LiveType(g, end.0, end.1);
      if HasKey(rows, end.0) || t.None? then rows
      else rows + [TypeRow(end.0, t.value.shortName, t.value.fields)]
  }

  function LiveView(g: AgentGraph, rootName: string): IoGraph {
    var edges := LiveLeafEdges(g, g.edges) + LiveRootEdge(g, rootName);
    IoGraph(g.root, LiveTypes(g, Ends(edges)), edges,
      (PathsOfKind(g.nodes, Composite), PathsOfKind(g.nodes, Leaf), ClassNames(g.nodes)))
  }

  /** `_render_io_graph`. */
  method RenderLive(g: AgentGraph, rootName: string) returns (view: IoGraph)
    ensures view == LiveView(g, rootName)
  {
    var ioEdges: seq<IoEdge> := [];
    for i := 0 to |g.edges|
      invariant ioEdges == LiveLeafEdges(g, g.edges[..i])
    {
      assert g.edges[..i + 1][..i] == g.edges[..i];
      if g.edges[i].callee in PathsOfKind(g.nodes, Leaf) {
        ioEdges := ioEdges + [LiveEdge(g, g.edges[i])];
      }
    }
    assert g.edges[..|g.edges|] == g.edges;
    ioEdges := ioEdges + LiveRootEdge(g, rootName);
    var types: seq<TypeRow> := [];
    for i := 0 to |ioEdges|
      invariant types == LiveTypes(g, Ends(ioEdges[..i]))
    {
      TwoMoreEnds(ioEdges, i);
      types := AddLive(g, types, Ends(ioEdges[..i]), ioEdges[i].from, From);
      types := AddLive(g, types, Ends(ioEdges[..i]) + [(ioEdges[i].from, From)], ioEdges[i].to, To);
    }
    assert ioEdges[..|ioEdges|] == ioEdges;
    view := IoGraph(g.root, types, ioEdges,
      (PathsOfKind(g.nodes, Composite), PathsOfKind(g.nodes, Leaf), ClassNames(g.nodes)));
  }

  method AddLive(g: AgentGraph, rows: seq<TypeRow>, ghost ends: seq<(string, Side)>, key: string, side: Side)
    returns (rows': seq<TypeRow>)
    requires rows == LiveTypes(g, ends)
    ensures rows' == LiveTypes(g, ends + [(key, side)])
  {
    ghost var more := ends + [(key, side)];
    assert more[..|more| - 1] == ends;
    rows' := rows;
    if !HasKey(rows, key) {
      var t := LiveType(g, key, side);
      if t.Some? {
        rows' := rows + [TypeRow(key, t.value.shortName, t.value.fields)];
      }
    }
  }

  lemma TwoMoreEnds(edges: seq<IoEdge>, i: nat)
    requires i < |edges|
    ensures Ends(edges[..i + 1]) == Ends(edges[..i]) + [(edges[i].from, From)] + [(edges[i].to, To)]
  {
    assert edges[..i + 1][..i] == edges[..i];
  }

  // ---- The JSON view ------------------------------------------------------------------------------

  function JsonPathsOfKind(nodes: seq<JsonNode>, kind: Kind): set<Path> {
    set n | n in nodes && n.kind == kind :: n.path
  }

  function JsonNodeAt(nodes: seq<JsonNode>, p: Path): Option<JsonNode> {
    if |nodes| == 0 then None
    else if nodes[|nodes| - 1].path == p then Some(nodes[|nodes| - 1])
    else JsonNodeAt(nodes[..|nodes| - 1], p)
  }

  function JsonClassNames(nodes: seq<JsonNode>): map<Path, string> {
    if |nodes| == 0 then map[]
    else
      var init, last := JsonClassNames(nodes[..|nodes| - 1]), nodes[|nodes| - 1];
      if last.kind == Composite then init[last.path := Either(last.className, "Composite")] else init
  }

  function FromJsonEdge(j: JsonGraph, e: JsonEdge): IoEdge {
    var n := JsonNodeAt(j.nodes, e.callee);
    IoEdge(e.callee, Either(e.className, Either(if n.Some? then n.value.className else "", LastName(e.callee))),
      e.input, e.output, Nearest(e.callee, JsonPathsOfKind(j.nodes, Composite), j.root))
  }

  function JsonLeafEdges(j: JsonGraph, edges: seq<JsonEdge>): seq<IoEdge> {
    if |edges| == 0 then []
    else
      var init, last := JsonLeafEdges(j, edges[..|edges| - 1]), edges[|edges| - 1];
      if last.callee in JsonPathsOfKind(j.nodes, Leaf) then init + [FromJsonEdge(j, last)] else init
  }

  function JsonRootEdge(j: JsonGraph, rootName: string): seq<IoEdge> {
    var n := if rootName == "" then None else JsonNodeAt(j.nodes, j.root);
    if n.Some? && n.value.kind == Leaf then
      [IoEdge(j.root, Either(n.value.className, rootName), n.value.input, n.value.output, None)]
    else []
  }

  function Named(n: JsonNode, side: Side): string {
    if side == From then n.input else n.output
  }

  function FieldsOf(n: JsonNode, side: Side): seq<FieldInfo> {
    if side == From then n.inputFields else n.outputFields
  }

  /** The first non-empty field list of a node with this type on this side. */
  function FirstFields(nodes: seq<JsonNode>, key: string, side: Side): seq<FieldInfo> {
    if |nodes| == 0 then []
    else if Named(nodes[0], side) == key && FieldsOf(nodes[0], side) != [] then FieldsOf(nodes[0], side)
    else FirstFields(nodes[1..], key, side)
  }

  function JsonTypes(j: JsonGraph, ends: seq<(string, Side)>): seq<TypeRow> {
    if |ends| == 0 then []
    else
      var rows, end := JsonTypes(j, ends[..|ends| - 1]), ends[|ends| - 1];
      if end.0 == "" || HasKey(rows, end.0) then rows
      else rows + [TypeRow(end.0, AfterDot(end.0), FirstFields(j.nodes, end.0, end.1))]
  }

  function JsonView(j: JsonGraph, rootName: string): IoGraph {
    var edges := JsonLeafEdges(j, j.edges) + JsonRootEdge(j, rootName);
    IoGraph(j.root, JsonTypes(j, Ends(edges)), edges,
      (JsonPathsOfKind(j.nodes, Composite), JsonPathsOfKind(j.nodes, Leaf), JsonClassNames(j.nodes)))
  }

  /** `_render_io_graph_from_json`. */
  method RenderJson(j: JsonGraph, rootName: string) returns (view: IoGraph)
    ensures view == JsonView(j, rootName)
  {
    var ioEdges: seq<IoEdge> := [];
    for i := 0 to |j.edges|
      invariant ioEdges == JsonLeafEdges(j, j.edges[..i])
    {
      assert j.edges[..i + 1][..i] == j.edges[..i];
      if j.edges[i].callee in JsonPathsOfKind(j.nodes, Leaf) {
        ioEdges := ioEdges + [FromJsonEdge(j, j.edges[i])];
      }
    }
    assert j.edges[..|j.edges|] == j.edges;
    ioEdges := ioEdges + JsonRootEdge(j, rootName);
    var types: seq<TypeRow> := [];
    for i := 0 to |ioEdges|
      invariant types == JsonTypes(j, Ends(ioEdges[..i]))
    {
      TwoMoreEnds(ioEdges, i);
      types := AddJson(j, types, Ends(ioEdges[..i]), ioEdges[i].from, From);
      types := AddJson(j, types, Ends(ioEdges[..i]) + [(ioEdges[i].from, From)], ioEdges[i].to, To);
    }
    assert ioEdges[..|ioEdges|] == ioEdges;
    view := IoGraph(j.root, types, ioEdges,
      (JsonPathsOfKind(j.nodes, Composite), JsonPathsOfKind(j.nodes, Leaf), JsonClassNames(j.nodes)));
  }

  method AddJson(j: JsonGraph, rows: seq<TypeRow>, ghost ends: seq<(string, Side)>, key: string, side: Side)
    returns (rows': seq<TypeRow>)
    requires rows == JsonTypes(j, ends)
    ensures rows' == JsonTypes(j, ends + [(key, side)])
  {
    ghost var more := ends + [(key, side)];
    assert more[..|more| - 1] == ends;
    rows' := rows;
    if key != "" && !HasKey(rows, key) {
      rows' := rows + [TypeRow(key, AfterDot(key), FirstFields(j.nodes, key, side))];
    }
  }

  // ---- Agreement -------------------------------------------------------------------------------------

  ghost predicate Occurs(g: AgentGraph, t: Type) {
    (exists i :: 0 <= i < |g.nodes| && (g.nodes[i].input == t || g.nodes[i].output == t)) ||
    exists i :: 0 <= i < |g.edges| && (g.edges[i].input == t || g.edges[i].output == t)
  }

  /** Qualified names identify types and are not empty. */
  ghost predicate Identified(g: AgentGraph) {
    (forall t :: Occurs(g, t) ==> t.qualified != "") &&
    forall t, u :: Occurs(g, t) && Occurs(g, u) && t.qualified == u.qualified ==> t == u
  }

  /** What the tracer records: with every edge, a node of the callee with the same two types. */
  ghost predicate Traced(g: AgentGraph) {
    forall i :: 0 <= i < |g.edges| ==>
      exists j :: 0 <= j < |g.nodes| && g.nodes[j].input == g.edges[i].input && g.nodes[j].output == g.edges[i].output
  }

  lemma {:induction false} JsonKeepsNodes(nodes: seq<TypedNode>, js: seq<JsonNode>, p: Path, kind: Kind)
    requires |js| == |nodes| && forall i :: 0 <= i < |nodes| ==> js[i] == NodeJson(nodes[i])
    ensures JsonPathsOfKind(js, kind) == PathsOfKind(nodes, kind)
    ensures JsonNodeAt(js, p) == (var n := NodeAt(nodes, p); if n.Some? then Some(NodeJson(n.value)) else None)
    ensures JsonClassNames(js) == ClassNames(nodes)
  {
    if |nodes| > 0 {
      var n := |nodes| - 1;
      JsonKeepsNodes(nodes[..n], js[..n], p, kind);
      assert nodes == nodes[..n] + [nodes[n]] && js == js[..n] + [js[n]];
    }
  }

  lemma {:induction false} SameEdges(g: AgentGraph, edges: seq<Edge>, js: seq<JsonEdge>)
    requires |js| == |edges| && forall i :: 0 <= i < |edges| ==> js[i] == EdgeJson(edges[i])
    ensures JsonLeafEdges(ToJson(g), js) == LiveLeafEdges(g, edges)
  {
    if |edges| > 0 {
      var n := |edges| - 1;
      SameEdges(g, edges[..n], js[..n]);
      JsonKeepsNodes(g.nodes, ToJson(g).nodes, edges[n].callee, Composite);
      JsonKeepsNodes(g.nodes, ToJson(g).nodes, edges[n].callee, Leaf);
    }
  }

  lemma {:induction false} FirstTypeOccurs(g: AgentGraph, edges: seq<Edge>, side: Side, key: string)
    requires forall e :: e in edges ==> e in g.edges
    ensures var t := FirstType(edges, side, key); t.Some? ==> t.value.qualified == key && Occurs(g, t.value)
  {
    if |edges| > 0 {
      if Typ(edges[0], side).qualified != key {
        FirstTypeOccurs(g, edges[1..], side, key);
      } else {
        assert edges[0] in g.edges;
        var i :| 0 <= i < |g.edges| && g.edges[i] == edges[0];
        assert Occurs(g, Typ(edges[0], side));
      }
    }
  }

  lemma {:induction false} NodeAtListed(nodes: seq<TypedNode>, p: Path)
    ensures NodeAt(nodes, p).Some? ==> NodeAt(nodes, p).value in nodes && NodeAt(nodes, p).value.path == p
  {
    if |nodes| > 0 && nodes[|nodes| - 1].path != p {
      NodeAtListed(nodes[..|nodes| - 1], p);
    }
  }

  /** A node has the type on this side. */
  ghost predicate OnNode(g: AgentGraph, t: Type, side: Side) {
    exists i :: 0 <= i < |g.nodes| && t == if side == From then g.nodes[i].input else g.nodes[i].output
  }

  lemma {:induction false} FieldsFound(g: AgentGraph, nodes: seq<TypedNode>, js: seq<JsonNode>, t: Type, side: Side)
    requires |js| == |nodes| && forall i :: 0 <= i < |nodes| ==> js[i] == NodeJson(nodes[i])
    requires forall i :: 0 <= i < |nodes| ==>
      var u := if side == From then nodes[i].input else nodes[i].output; u.qualified == t.qualified ==> u == t
    requires exists i :: 0 <= i < |nodes| && t == if side == From then nodes[i].input else nodes[i].output
    ensures FirstFields(js, t.qualified, side) == t.fields
  {
    if Named(js[0], side) == t.qualified && t.fields != [] {
    } else if t.fields == [] {
      NoFields(nodes, js, t, side);
    } else {
      assert js[0] == NodeJson(nodes[0]);
      FieldsFound(g, nodes[1..], js[1..], t, side);
    }
  }

  lemma {:induction false} NoFields(nodes: seq<TypedNode>, js: seq<JsonNode>, t: Type, side: Side)
    requires |js| == |nodes| && forall i :: 0 <= i < |nodes| ==> js[i] == NodeJson(nodes[i])
    requires forall i :: 0 <= i < |nodes| ==>
      var u := if side == From then nodes[i].input else nodes[i].output; u.qualified == t.qualified ==> u == t
    requires t.fields == []
    ensures FirstFields(js, t.qualified, side) == []
  {
    if |nodes| > 0 {
      assert js[0] == NodeJson(nodes[0]);
      NoFields(nodes[1..], js[1..], t, side);
    }
  }

  /** For a type on a node, the live lookup finds the type and the JSON lookup its fields. */
  lemma LookupsAgree(g: AgentGraph, t: Type, side: Side)
    requires Identified(g) && OnNode(g, t, side) && Occurs(g, t)
    requires FirstType(g.edges, side, t.qualified).Some? || (NodeAt(g.nodes, g.root).Some? &&
             (NodeAt(g.nodes, g.root).value.input == t || NodeAt(g.nodes, g.root).value.output == t))
    ensures LiveType(g, t.qualified, side) == Some(t)
    ensures FirstFields(ToJson(g).nodes, t.qualified, side) == t.fields && t.qualified != ""
  {
    LiveLookup(g, t, side);
    forall i | 0 <= i < |g.nodes|
      ensures var u := if side == From then g.nodes[i].input else g.nodes[i].output;
              u.qualified == t.qualified ==> u == t
    {
      assert Occurs(g, g.nodes[i].input) && Occurs(g, g.nodes[i].output);
    }
    FieldsFound(g, g.nodes, ToJson(g).nodes, t, side);
  }

  lemma LiveLookup(g: AgentGraph, t: Type, side: Side)
    requires Identified(g) && Occurs(g, t)
    requires FirstType(g.edges, side, t.qualified).Some? || (NodeAt(g.nodes, g.root).Some? &&
             (NodeAt(g.nodes, g.root).value.input == t || NodeAt(g.nodes, g.root).value.output == t))
    ensures LiveType(g, t.qualified, side) == Some(t)
  {
    FirstTypeOccurs(g, g.edges, side, t.qualified);
    NodeAtListed(g.nodes, g.root);
    if NodeAt(g.nodes, g.root).Some? {
      var i :| 0 <= i < |g.nodes| && g.nodes[i] == NodeAt(g.nodes, g.root).value;
      assert Occurs(g, g.nodes[i].input) && Occurs(g, g.nodes[i].output);
    }
  }

  /** The end is a type that both views look up alike. */
  ghost predicate GoodEnd(g: AgentGraph, end: (string, Side)) {
    exists t :: Occurs(g, t) && t.qualified == end.0 && end.0 != "" && LiveType(g, end.0, end.1) == Some(t) &&
                FirstFields(ToJson(g).nodes, end.0, end.1) == t.fields
  }

  lemma {:induction false} FirstTypeExists(edges: seq<Edge>, side: Side, e: Edge)
    requires e in edges
    ensures FirstType(edges, side, Typ(e, side).qualified).Some?
  {
    if edges[0] != e {
      FirstTypeExists(edges[1..], side, e);
    }
  }

  lemma EdgeEndsGood(g: AgentGraph, e: Edge, side: Side)
    requires Identified(g) && Traced(g) && e in g.edges
    ensures GoodEnd(g, (Typ(e, side).qualified, side))
  {
    var i :| 0 <= i < |g.edges| && g.edges[i] == e;
    var j :| 0 <= j < |g.nodes| && g.nodes[j].input == g.edges[i].input && g.nodes[j].output == g.edges[i].output;
    assert OnNode(g, Typ(e, side), side) && Occurs(g, Typ(e, side));
    FirstTypeExists(g.edges, side, e);
    LookupsAgree(g, Typ(e, side), side);
  }

  lemma RootEndsGood(g: AgentGraph, side: Side)
    requires Identified(g) && NodeAt(g.nodes, g.root).Some?
    ensures var n := NodeAt(g.nodes, g.root).value;
            GoodEnd(g, ((if side == From then n.input else n.output).qualified, side))
  {
    var n := NodeAt(g.nodes, g.root).value;
    NodeAtListed(g.nodes, g.root);
    var t := if side == From then n.input else n.output;
    assert OnNode(g, t, side) && Occurs(g, t) by {
      var i :| 0 <= i < |g.nodes| && g.nodes[i] == n;
    }
    LookupsAgree(g, t, side);
  }

  ghost predicate GoodEnds(g: AgentGraph, edges: seq<IoEdge>) {
    forall i :: 0 <= i < |edges| ==> GoodEnd(g, (edges[i].from, From)) && GoodEnd(g, (edges[i].to, To))
  }

  lemma {:induction false} LeafEndsGood(g: AgentGraph, edges: seq<Edge>)
    requires Identified(g) && Traced(g) && forall e :: e in edges ==> e in g.edges
    ensures GoodEnds(g, LiveLeafEdges(g, edges))
  {
    hide GoodEnd, Identified, Traced;
    if |edges| > 0 {
      var last := edges[|edges| - 1];
      LeafEndsGood(g, edges[..|edges| - 1]);
      EdgeEndsGood(g, last, From);
      EdgeEndsGood(g, last, To);
    }
  }

  /** Row by row: same keys and fields, and the same name exactly where a type's class name is the last
      segment of its qualified name. */
  ghost predicate RowsMatch(live: seq<TypeRow>, js: seq<TypeRow>) {
    |live| == |js| && forall i :: 0 <= i < |live| ==>
      js[i].key == live[i].key && js[i].fields == live[i].fields && js[i].name == AfterDot(live[i].key)
  }

  lemma {:induction false} TypesMatch(g: AgentGraph, ends: seq<(string, Side)>)
    requires forall i :: 0 <= i < |ends| ==> GoodEnd(g, ends[i])
    ensures RowsMatch(LiveTypes(g, ends), JsonTypes(ToJson(g), ends))
  {
    if |ends| > 0 {
      var init, end := ends[..|ends| - 1], ends[|ends| - 1];
      TypesMatch(g, init);
      var live, js := LiveTypes(g, init), JsonTypes(ToJson(g), init);
      assert GoodEnd(g, end);
      assert HasKey(live, end.0) == HasKey(js, end.0) by {
        if HasKey(live, end.0) {
          var i :| 0 <= i < |live| && live[i].key == end.0;
          assert js[i].key == end.0;
        }
        if HasKey(js, end.0) {
          var i :| 0 <= i < |js| && js[i].key == end.0;
          assert live[i].key == end.0;
        }
      }
    }
  }

  lemma {:induction false} AllEndsGood(g: AgentGraph, edges: seq<IoEdge>)
    requires GoodEnds(g, edges)
    ensures forall i :: 0 <= i < |Ends(edges)| ==> GoodEnd(g, Ends(edges)[i])
  {
    if |edges| > 0 {
      AllEndsGood(g, edges[..|edges| - 1]);
      var last := edges[|edges| - 1];
      assert GoodEnd(g, (last.from, From)) && GoodEnd(g, (last.to, To));
    }
  }

  lemma EdgesAgree(g: AgentGraph, rootName: string)
    requires rootName != ""
    ensures var live, js := LiveView(g, rootName), JsonView(ToJson(g), rootName);
            js.edges == live.edges && js.root == live.root && js.composites == live.composites
  {
    SameEdges(g, g.edges, ToJson(g).edges);
    JsonKeepsNodes(g.nodes, ToJson(g).nodes, g.root, Leaf);
    JsonKeepsNodes(g.nodes, ToJson(g).nodes, g.root, Composite);
  }

  lemma ViewEndsGood(g: AgentGraph, rootName: string)
    requires Identified(g) && Traced(g)
    ensures forall i :: 0 <= i < |Ends(LiveView(g, rootName).edges)| ==>
      GoodEnd(g, Ends(LiveView(g, rootName).edges)[i])
  {
    hide GoodEnd, LiveLeafEdges, Identified, Traced;
    LeafEndsGood(g, g.edges);
    if NodeAt(g.nodes, g.root).Some? {
      RootEndsGood(g, From);
      RootEndsGood(g, To);
    }
    AllEndsGood(g, LiveView(g, rootName).edges);
  }

  lemma RowsEqualIff(live: seq<TypeRow>, js: seq<TypeRow>)
    requires RowsMatch(live, js)
    ensures js == live <==> forall i :: 0 <= i < |live| ==> live[i].name == AfterDot(live[i].key)
  {
    if forall i :: 0 <= i < |live| ==> live[i].name == AfterDot(live[i].key) {
      forall i | 0 <= i < |live|
        ensures js[i] == live[i]
      {
      }
    }
  }

  /** THE TWO VIEWS AGREE exactly when every listed type's class name is the last segment of its
      qualified name; edges, composites, keys, fields and order agree in any case. */
  lemma ViewsAgreeIff(g: AgentGraph, rootName: string)
    requires Identified(g) && Traced(g) && rootName != ""
    ensures var live, js := LiveView(g, rootName), JsonView(ToJson(g), rootName);
            js.edges == live.edges && js.composites == live.composites && RowsMatch(live.types, js.types) &&
            (js == live <==> forall i :: 0 <= i < |live.types| ==> live.types[i].name == AfterDot(live.types[i].key))
  {
    var live, js := LiveView(g, rootName), JsonView(ToJson(g), rootName);
    EdgesAgree(g, rootName);
    ViewEndsGood(g, rootName);
    TypesMatch(g, Ends(live.edges));
    RowsEqualIff(live.types, js.types);
  }
}
