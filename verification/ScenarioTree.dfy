/** The scenario tree of a guided conversation: flat listing and lookup by id. */
module ScenarioTree {
  import opened Options

  datatype Node = Node(
    id: string, title: string, prompt: string, instructions: string, terminal: bool, children: seq<Node>)

  datatype Row = Row(id: string, title: string, prompt: string, terminal: bool, parent: Option<string>)

  // ---- Lookup ----------------------------------------------------------------------------

  /** `find`: depth first. */
  function Find(n: Node, id: string): Option<Node>
    decreases n, 1
  {
    if n.id == id then Some(n) else FindIn(n.children, id)
  }

  function FindIn(ns: seq<Node>, id: string): Option<Node>
    decreases ns, 0
  {
    if |ns| == 0 then None
    else
      var hit := Find(ns[0], id);
      if hit.Some? then hit else FindIn(ns[1..], id)
  }

  /** The ids in the order of the depth-first walk. */
  function Ids(n: Node): (ids: seq<string>)
    ensures n.id in ids
    decreases n, 1
  {
    [n.id] + IdsOf(n.children)
  }

  function IdsOf(ns: seq<Node>): seq<string>
    decreases ns, 0
  {
    if |ns| == 0 then [] else Ids(ns[0]) + IdsOf(ns[1..])
  }

  lemma {:induction false} FindIffListed(n: Node, id: string)
    ensures Find(n, id).Some? <==> id in Ids(n)
    ensures Find(n, id).Some? ==> Find(n, id).value.id == id
    decreases n, 1
  {
    FindInIffListed(n.children, id);
  }

  lemma {:induction false} FindInIffListed(ns: seq<Node>, id: string)
    ensures FindIn(ns, id).Some? <==> id in IdsOf(ns)
    ensures FindIn(ns, id).Some? ==> FindIn(ns, id).value.id == id
    decreases ns, 0
  {
    if |ns| > 0 {
      FindIffListed(ns[0], id);
      FindInIffListed(ns[1..], id);
    }
  }

  // ---- The flat listing ------------------------------------------------------------------------

  function RowOf(n: Node, parent: Option<string>): Row {
    Row(n.id, n.title, n.prompt, n.terminal, parent)
  }

  function Rows(n: Node, parent: Option<string>): (rows: seq<Row>)
    ensures |rows| >= 1 && rows[0] == RowOf(n, parent)
    decreases n, 1
  {
    [RowOf(n, parent)] + RowsOf(n.children, n.id)
  }

  function RowsOf(ns: seq<Node>, parent: string): seq<Row>
    decreases ns, 0
  {
    if |ns| == 0 then [] else Rows(ns[0], Some(parent)) + RowsOf(ns[1..], parent)
  }

  lemma {:induction false} RowsConcat(a: seq<Node>, b: seq<Node>, parent: string)
    ensures RowsOf(a + b, parent) == RowsOf(a, parent) + RowsOf(b, parent)
  {
    if |a| == 0 {
      assert a + b == b;
    } else {
      assert (a + b)[1..] == a[1..] + b;
      RowsConcat(a[1..], b, parent);
    }
  }

  /** The inner `walk` of `_serialize_tree`. */
  method Walk(n: Node, parent: Option<string>, rows: seq<Row>) returns (rows': seq<Row>)
    ensures rows' == rows + Rows(n, parent)
    decreases n
  {
    rows' := rows + [RowOf(n, parent)];
    for i := 0 to |n.children|
      invariant rows' == rows + [RowOf(n, parent)] + RowsOf(n.children[..i], n.id)
    {
      assert n.children[..i + 1] == n.children[..i] + [n.children[i]];
      RowsConcat(n.children[..i], [n.children[i]], n.id);
      rows' := Walk(n.children[i], Some(n.id), rows');
    }
    assert n.children[..|n.children|] == n.children;
  }

  method Serialize(root: Node) returns (rows: seq<Row>)
    ensures rows == Rows(root, None)
  {
    rows := Walk(root, None, []);
  }

  /** Row ids are the tree's ids in walk order: every node is listed once. */
  lemma {:induction false} RowIds(n: Node, parent: Option<string>)
    ensures |Rows(n, parent)| == |Ids(n)|
    ensures forall i :: 0 <= i < |Ids(n)| ==> Rows(n, parent)[i].id == Ids(n)[i]
    decreases n, 1
  {
    RowIdsOf(n.children, n.id);
  }

  lemma {:induction false} RowIdsOf(ns: seq<Node>, parent: string)
    ensures |RowsOf(ns, parent)| == |IdsOf(ns)|
    ensures forall i :: 0 <= i < |IdsOf(ns)| ==> RowsOf(ns, parent)[i].id == IdsOf(ns)[i]
    decreases ns, 0
  {
    if |ns| > 0 {
      RowIds(ns[0], Some(parent));
      RowIdsOf(ns[1..], parent);
    }
  }

  ghost predicate ParentAbove(rows: seq<Row>, i: nat)
    requires i < |rows|
  {
    rows[i].parent.Some? && exists j :: 0 <= j < i && rows[j].id == rows[i].parent.value
  }

  lemma AboveKeeps(a: seq<Row>, b: seq<Row>, k: nat)
    requires k < |a| && ParentAbove(a, k)
    ensures ParentAbove(a + b, k)
  {
    var j :| 0 <= j < k && a[j].id == a[k].parent.value;
    assert (a + b)[j].id == (a + b)[k].parent.value;
  }

  lemma AboveShifts(a: seq<Row>, b: seq<Row>, k: nat)
    requires k < |b| && ParentAbove(b, k)
    ensures ParentAbove(a + b, |a| + k)
  {
    var j :| 0 <= j < k && b[j].id == b[k].parent.value;
    assert (a + b)[|a| + j].id == (a + b)[|a| + k].parent.value;
  }

  /** Every listed node but the root comes after its parent. */
  lemma {:induction false} ParentsFirst(n: Node, parent: Option<string>)
    ensures forall i :: 0 < i < |Rows(n, parent)| ==> ParentAbove(Rows(n, parent), i)
    decreases n, 1
  {
    var below, rows := RowsOf(n.children, n.id), Rows(n, parent);
    ParentsFirstOf(n.children, n.id);
    forall i | 0 < i < |rows|
      ensures ParentAbove(rows, i)
    {
      assert rows[i] == below[i - 1];
      if below[i - 1].parent == Some(n.id) {
        assert rows[0].id == rows[i].parent.value;
      } else {
        AboveShifts([RowOf(n, parent)], below, i - 1);
      }
    }
  }

  lemma {:induction false} ParentsFirstOf(ns: seq<Node>, parent: string)
    ensures forall i :: 0 <= i < |RowsOf(ns, parent)| ==>
      RowsOf(ns, parent)[i].parent == Some(parent) || ParentAbove(RowsOf(ns, parent), i)
    decreases ns, 0
  {
    if |ns| > 0 {
      var first, rest, rows := Rows(ns[0], Some(parent)), RowsOf(ns[1..], parent), RowsOf(ns, parent);
      ParentsFirst(ns[0], Some(parent));
      ParentsFirstOf(ns[1..], parent);
      forall i | 0 <= i < |rows|
        ensures rows[i].parent == Some(parent) || ParentAbove(rows, i)
      {
        if 0 < i < |first| {
          AboveKeeps(first, rest, i);
        } else if |first| <= i && rest[i - |first|].parent != Some(parent) {
          AboveShifts(first, rest, i - |first|);
        }
      }
    }
  }

  // ---- Rebuilding the tree from the listing ---------------------------------------------------------

  /** What the listing keeps of a node: everything but the navigator's instructions. */
  function Listed(n: Node): Node
    decreases n, 1
  {
    Node(n.id, n.title, n.prompt, "", n.terminal, ListedAll(n.children))
  }

  function ListedAll(ns: seq<Node>): seq<Node>
    decreases ns, 0
  {
    if |ns| == 0 then [] else [Listed(ns[0])] + ListedAll(ns[1..])
  }

  lemma {:induction false} ListedSize(ns: seq<Node>)
    ensures |ListedAll(ns)| == |ns|
  {
    if |ns| > 0 {
      ListedSize(ns[1..]);
    }
  }

  /** The node of row `i`; its children are the later rows that name it as parent. */
  function Rebuild(rows: seq<Row>, i: nat): Node
    requires i < |rows|
    decreases |rows| - i, 0
  {
    Node(rows[i].id, rows[i].title, rows[i].prompt, "", rows[i].terminal, ChildrenFrom(rows, rows[i].id, i + 1))
  }

  function ChildrenFrom(rows: seq<Row>, id: string, j: nat): seq<Node>
    requires j <= |rows|
    decreases |rows| - j, 1
  {
    if j == |rows| then []
    else (if rows[j].parent == Some(id) then [Rebuild(rows, j)] else []) + ChildrenFrom(rows, id, j + 1)
  }

  ghost predicate Distinct(ids: seq<string>) {
    forall i, j :: 0 <= i < j < |ids| ==> ids[i] != ids[j]
  }

  lemma DistinctSplits(a: seq<string>, b: seq<string>)
    requires Distinct(a + b)
    ensures Distinct(a) && Distinct(b) && forall x :: x in a ==> x !in b
  {
    forall i, j | 0 <= i < |a| && 0 <= j < |b|
      ensures a[i] != b[j]
    {
      assert (a + b)[i] != (a + b)[|a| + j];
    }
    forall i, j | 0 <= i < j < |b|
      ensures b[i] != b[j]
    {
      assert (a + b)[|a| + i] != (a + b)[|a| + j];
    }
    assert forall i :: 0 <= i < |a| ==> (a + b)[i] == a[i];
  }

  /** No row from `j` on up to `k` names `id` as parent. */
  ghost predicate NoChild(rows: seq<Row>, id: string, j: nat, k: nat)
    requires j <= k <= |rows|
  {
    forall i :: j <= i < k ==> rows[i].parent != Some(id)
  }

  lemma {:induction false} SkipRows(rows: seq<Row>, id: string, j: nat, k: nat)
    requires j <= k <= |rows| && NoChild(rows, id, j, k)
    ensures ChildrenFrom(rows, id, j) == ChildrenFrom(rows, id, k)
    decreases k - j
  {
    if j < k {
      SkipRows(rows, id, j + 1, k);
    }
  }

  /** A row below `parent` names `parent` or a node of the forest. */
  ghost predicate ParentAmong(r: Row, parent: string, ids: seq<string>) {
    r.parent.Some? && (r.parent.value == parent || r.parent.value in ids)
  }

  lemma {:induction false} ParentsAreAbove(ns: seq<Node>, parent: string)
    ensures forall i :: 0 <= i < |RowsOf(ns, parent)| ==> ParentAmong(RowsOf(ns, parent)[i], parent, IdsOf(ns))
    decreases ns
  {
    if |ns| > 0 {
      var first, rest := Rows(ns[0], Some(parent)), RowsOf(ns[1..], parent);
      var below := RowsOf(ns[0].children, ns[0].id);
      ParentsAreAbove(ns[0].children, ns[0].id);
      ParentsAreAbove(ns[1..], parent);
      forall i | 0 <= i < |first + rest|
        ensures ParentAmong((first + rest)[i], parent, Ids(ns[0]) + IdsOf(ns[1..]))
      {
        if 0 < i < |first| {
          assert first[i] == below[i - 1] && ParentAmong(below[i - 1], ns[0].id, IdsOf(ns[0].children));
        } else if |first| <= i {
          assert ParentAmong(rest[i - |first|], parent, IdsOf(ns[1..]));
        }
      }
    }
  }

  /** `mid` lies in `rows` from `i` on. */
  ghost predicate Lies(rows: seq<Row>, i: nat, mid: seq<Row>) {
    i + |mid| <= |rows| && rows[i..i + |mid|] == mid
  }

  lemma LiesSplit(rows: seq<Row>, i: nat, a: seq<Row>, b: seq<Row>)
    requires Lies(rows, i, a + b)
    ensures Lies(rows, i, a) && Lies(rows, i + |a|, b)
  {
    var ab := rows[i..i + |a + b|];
    assert rows[i..i + |a|] == ab[..|a|];
    assert rows[i + |a|..i + |a| + |b|] == ab[|a|..];
  }

  /** No row from `k` on names a node of `ids` as parent. */
  ghost predicate ClosedAfter(rows: seq<Row>, k: nat, ids: seq<string>)
    requires k <= |rows|
  {
    forall i :: k <= i < |rows| ==> rows[i].parent.None? || rows[i].parent.value !in ids
  }

  lemma {:induction false} RebuildNode(rows: seq<Row>, i: nat, n: Node, parent: Option<string>)
    requires Lies(rows, i, Rows(n, parent)) && Distinct(Ids(n))
    requires ClosedAfter(rows, i + |Rows(n, parent)|, Ids(n))
    ensures Rebuild(rows, i) == Listed(n)
    decreases n, 1
  {
    var below := RowsOf(n.children, n.id);
    LiesSplit(rows, i, [RowOf(n, parent)], below);
    assert rows[i] == rows[i..i + 1][0];
    DistinctSplits([n.id], IdsOf(n.children));
    assert n.id !in IdsOf(n.children) by {
      assert n.id in [n.id];
    }
    RebuildAll(rows, i + 1, n.children, n.id);
    SkipRows(rows, n.id, i + 1 + |below|, |rows|);
  }

  lemma {:induction false} RebuildAll(rows: seq<Row>, i: nat, ns: seq<Node>, id: string)
    requires Lies(rows, i, RowsOf(ns, id)) && Distinct(IdsOf(ns)) && id !in IdsOf(ns)
    requires ClosedAfter(rows, i + |RowsOf(ns, id)|, IdsOf(ns))
    ensures ChildrenFrom(rows, id, i) == ListedAll(ns) + ChildrenFrom(rows, id, i + |RowsOf(ns, id)|)
    decreases ns, 1
  {
    hide Rows, Ids, ChildrenFrom, Rebuild;
    if |ns| > 0 {
      var first, rest := Rows(ns[0], Some(id)), RowsOf(ns[1..], id);
      RebuildFirst(rows, i, ns, id);
      LiesSplit(rows, i, first, rest);
      DistinctSplits(Ids(ns[0]), IdsOf(ns[1..]));
      RebuildAll(rows, i + |first|, ns[1..], id);
    }
  }

  lemma {:induction false} RebuildFirst(rows: seq<Row>, i: nat, ns: seq<Node>, id: string)
    requires |ns| > 0 && Lies(rows, i, RowsOf(ns, id)) && Distinct(IdsOf(ns)) && id !in IdsOf(ns)
    requires ClosedAfter(rows, i + |RowsOf(ns, id)|, IdsOf(ns))
    ensures ChildrenFrom(rows, id, i) == [Listed(ns[0])] + ChildrenFrom(rows, id, i + |Rows(ns[0], Some(id))|)
    decreases ns, 0
  {
    var first, rest := Rows(ns[0], Some(id)), RowsOf(ns[1..], id);
    LiesSplit(rows, i, first, rest);
    DistinctSplits(Ids(ns[0]), IdsOf(ns[1..]));
    SiblingsClosed(rows, i + |first|, ns, id);
    RebuildNode(rows, i, ns[0], Some(id));
    FirstOfForest(rows, i, ns[0], id);
  }

  lemma FirstOfForest(rows: seq<Row>, i: nat, n: Node, id: string)
    requires Lies(rows, i, Rows(n, Some(id))) && id !in Ids(n) && Rebuild(rows, i) == Listed(n)
    ensures ChildrenFrom(rows, id, i) == [Listed(n)] + ChildrenFrom(rows, id, i + |Rows(n, Some(id))|)
  {
    var first := Rows(n, Some(id));
    OwnRowsOnly(rows, i, n, id);
    SkipRows(rows, id, i + 1, i + |first|);
    assert rows[i] == rows[i..i + |first|][0] == first[0];
  }

  /** After the first tree of a forest no row hangs below that tree. */
  lemma SiblingsClosed(rows: seq<Row>, k: nat, ns: seq<Node>, id: string)
    requires |ns| > 0 && Lies(rows, k, RowsOf(ns[1..], id)) && id !in IdsOf(ns)
    requires forall x :: x in Ids(ns[0]) ==> x !in IdsOf(ns[1..])
    requires ClosedAfter(rows, k + |RowsOf(ns[1..], id)|, IdsOf(ns))
    ensures ClosedAfter(rows, k, Ids(ns[0]))
  {
    var rest := RowsOf(ns[1..], id);
    ParentsAreAbove(ns[1..], id);
    forall i | k <= i < |rows|
      ensures rows[i].parent.None? || rows[i].parent.value !in Ids(ns[0])
    {
      if i < k + |rest| {
        assert rows[i] == rows[k..k + |rest|][i - k] == rest[i - k];
        assert ParentAmong(rest[i - k], id, IdsOf(ns[1..]));
      }
    }
  }

  /** Below the root of a tree no row names the tree's parent. */
  lemma OwnRowsOnly(rows: seq<Row>, i: nat, n: Node, id: string)
    requires Lies(rows, i, Rows(n, Some(id))) && id !in Ids(n)
    ensures NoChild(rows, id, i + 1, i + |Rows(n, Some(id))|)
  {
    var all := Rows(n, Some(id));
    ParentsAreAbove(n.children, n.id);
    forall j | i + 1 <= j < i + |all|
      ensures rows[j].parent != Some(id)
    {
      assert rows[j] == rows[i..i + |all|][j - i] == all[j - i] == RowsOf(n.children, n.id)[j - i - 1];
      assert ParentAmong(RowsOf(n.children, n.id)[j - i - 1], n.id, IdsOf(n.children));
    }
  }

  /** FLATTENING LOSES NOTHING. With unique ids, the tree comes back from the (id, parent id) list. */
  lemma ListingRebuilds(root: Node)
    requires Distinct(Ids(root))
    ensures Rebuild(Rows(root, None), 0) == Listed(root)
  {
    var rows := Rows(root, None);
    assert rows[0..0 + |rows|] == rows;
    RebuildNode(rows, 0, root, None);
  }

  // ---- Exactly when the listing can be undone ------------------------------------------------------

  /** Rows `j .. k` that name `id` as their parent. */
  function Naming(rows: seq<Row>, id: string, j: nat, k: nat): nat
    requires j <= k <= |rows|
    decreases k - j
  {
    if j == k then 0 else (if rows[j].parent == Some(id) then 1 else 0) + Naming(rows, id, j + 1, k)
  }

  lemma {:induction false} NamingSplits(rows: seq<Row>, id: string, j: nat, k: nat, l: nat)
    requires j <= k <= l <= |rows|
    ensures Naming(rows, id, j, l) == Naming(rows, id, j, k) + Naming(rows, id, k, l)
    decreases k - j
  {
    if j < k {
      NamingSplits(rows, id, j + 1, k, l);
    }
  }

  lemma {:induction false} NamingNone(rows: seq<Row>, id: string, j: nat, k: nat)
    requires j <= k <= |rows| && Naming(rows, id, j, k) == 0
    ensures NoChild(rows, id, j, k)
    decreases k - j
  {
    if j < k {
      NamingNone(rows, id, j + 1, k);
    }
  }

  lemma {:induction false} NamingCounts(rows: seq<Row>, id: string, j: nat)
    requires j <= |rows|
    ensures |ChildrenFrom(rows, id, j)| == Naming(rows, id, j, |rows|)
    decreases |rows| - j
  {
    if j < |rows| {
      NamingCounts(rows, id, j + 1);
    }
  }

  /** Every node of the tree at row `i` is named by as many later rows as it has children. */
  ghost predicate Counted(rows: seq<Row>, i: nat, n: Node)
    requires i < |rows|
    decreases n, 1
  {
    Naming(rows, n.id, i + 1, |rows|) == |n.children| && CountedAll(rows, i + 1, n.children)
  }

  ghost predicate CountedAll(rows: seq<Row>, p: nat, ns: seq<Node>)
    decreases ns, 0
  {
    |ns| > 0 ==> p < |rows| && Counted(rows, p, ns[0]) && CountedAll(rows, p + |Ids(ns[0])|, ns[1..])
  }

  /** The trees of a forest each have a row that names their parent. */
  lemma {:induction false} OwnNaming(rows: seq<Row>, p: nat, ns: seq<Node>, id: string)
    requires Lies(rows, p, RowsOf(ns, id))
    ensures Naming(rows, id, p, p + |RowsOf(ns, id)|) >= |ns|
    decreases ns
  {
    if |ns| > 0 {
      var first, rest := Rows(ns[0], Some(id)), RowsOf(ns[1..], id);
      LiesSplit(rows, p, first, rest);
      assert rows[p] == rows[p..p + |first|][0] == first[0];
      OwnNaming(rows, p + |first|, ns[1..], id);
      NamingSplits(rows, id, p, p + |first|, p + |first| + |rest|);
    }
  }

  /** If no other row names the parent, the forest's rows are its children, tree by tree. */
  lemma NoOtherNames(rows: seq<Row>, p: nat, ns: seq<Node>, id: string)
    requires |ns| > 0 && Lies(rows, p, RowsOf(ns, id)) && Naming(rows, id, p, |rows|) == |ns|
    ensures var q := p + |Ids(ns[0])|;
      && p < q <= |rows| && Lies(rows, p, Rows(ns[0], Some(id))) && Lies(rows, q, RowsOf(ns[1..], id))
      && Naming(rows, id, q, |rows|) == |ns| - 1
      && ChildrenFrom(rows, id, p) == [Rebuild(rows, p)] + ChildrenFrom(rows, id, q)
  {
    hide Ids, Rebuild;
    var first, rest := Rows(ns[0], Some(id)), RowsOf(ns[1..], id);
    RowIds(ns[0], Some(id));
    LiesSplit(rows, p, first, rest);
    var q := p + |first|;
    assert rows[p] == rows[p..q][0] == first[0];
    OwnNaming(rows, q, ns[1..], id);
    NamingSplits(rows, id, p + 1, q, |rows|);
    NamingSplits(rows, id, q, q + |rest|, |rows|);
    NamingNone(rows, id, p + 1, q);
    SkipRows(rows, id, p + 1, q);
  }

  lemma {:induction false} RebuildIff(rows: seq<Row>, i: nat, n: Node, parent: Option<string>)
    requires Lies(rows, i, Rows(n, parent))
    ensures i < |rows| && (Rebuild(rows, i) == Listed(n) <==> Counted(rows, i, n))
    decreases n, 1
  {
    var below := RowsOf(n.children, n.id);
    LiesSplit(rows, i, [RowOf(n, parent)], below);
    assert rows[i] == rows[i..i + 1][0];
    NamingCounts(rows, n.id, i + 1);
    ListedSize(n.children);
    if Naming(rows, n.id, i + 1, |rows|) == |n.children| {
      RebuildAllIff(rows, i + 1, n.children, n.id);
    }
  }

  lemma {:induction false} RebuildAllIff(rows: seq<Row>, p: nat, ns: seq<Node>, id: string)
    requires Lies(rows, p, RowsOf(ns, id)) && Naming(rows, id, p, |rows|) == |ns|
    ensures ChildrenFrom(rows, id, p) == ListedAll(ns) <==> CountedAll(rows, p, ns)
    decreases ns, 0
  {
    if |ns| == 0 {
      NamingCounts(rows, id, p);
    } else {
      NoOtherNames(rows, p, ns, id);
      var q := p + |Ids(ns[0])|;
      RebuildIff(rows, p, ns[0], Some(id));
      RebuildAllIff(rows, q, ns[1..], id);
      HeadAndTail(Rebuild(rows, p), ChildrenFrom(rows, id, q), Listed(ns[0]), ListedAll(ns[1..]));
    }
  }

  lemma HeadAndTail(a: Node, s: seq<Node>, b: Node, t: seq<Node>)
    ensures [a] + s == [b] + t <==> a == b && s == t
  {
    assert ([a] + s)[0] == a && ([a] + s)[1..] == s && ([b] + t)[0] == b && ([b] + t)[1..] == t;
  }

  /** EXACTLY WHEN. The tree comes back from the (id, parent id) list if and only if every node is named
      as a parent by as many later rows as it has children; unique ids are one way to get there, a
      repeated id on childless siblings another. */
  lemma ListingRebuildsIff(root: Node)
    ensures Rebuild(Rows(root, None), 0) == Listed(root) <==> Counted(Rows(root, None), 0, root)
  {
    var rows := Rows(root, None);
    assert rows[0..0 + |rows|] == rows;
    RebuildIff(rows, 0, root, None);
  }

  /** Equal listings come from equal trees. */
  lemma ListingInjective(a: Node, b: Node)
    requires Distinct(Ids(a)) && Distinct(Ids(b)) && Rows(a, None) == Rows(b, None)
    ensures Listed(a) == Listed(b)
  {
    ListingRebuilds(a);
    ListingRebuilds(b);
  }

  lemma LeafRows(n: Node, parent: Option<string>)
    requires n.children == []
    ensures Rows(n, parent) == [RowOf(n, parent)]
  {
  }

  lemma OneTree(n: Node, parent: string)
    ensures RowsOf([n], parent) == Rows(n, Some(parent))
  {
    var ns := [n];
    assert ns[0] == n && ns[1..] == [];
  }

  /** Without unique ids two different trees can have one listing. */
  lemma RepeatedIdsAreAmbiguous(a: string, b: string, c: string)
    requires a != b && b != c
    ensures var leaf := (x: string) => Node(x, "", "", "", false, []);
            var flat := Node(a, "", "", "", false, [Node(b, "", "", "", false, [leaf(b), leaf(c)])]);
            var deep := Node(a, "", "", "", false,
                             [Node(b, "", "", "", false, [Node(b, "", "", "", false, [leaf(c)])])]);
            Rows(flat, None) == Rows(deep, None) && Listed(flat) != Listed(deep)
  {
    var lb, lc := Node(b, "", "", "", false, []), Node(c, "", "", "", false, []);
    var f := Node(b, "", "", "", false, [lb, lc]);
    var g := Node(b, "", "", "", false, [lc]);
    var d := Node(b, "", "", "", false, [g]);
    assert [lb, lc][1..] == [lc] && [lc][1..] == [] && [g][1..] == [] && [f][1..] == [] && [d][1..] == [];
    OneTree(lc, b);
    OneTree(g, b);
    assert RowsOf([lb, lc], b) == Rows(lb, Some(b)) + RowsOf([lc], b);
    LeafRows(lb, Some(b));
    LeafRows(lc, Some(b));
    assert Rows(f, Some(a)) == [RowOf(f, Some(a))] + RowsOf([lb, lc], b);
    assert Rows(g, Some(b)) == [RowOf(g, Some(b))] + RowsOf([lc], b);
    assert Rows(d, Some(a)) == [RowOf(d, Some(a))] + RowsOf([g], b);
    assert RowOf(g, Some(b)) == RowOf(lb, Some(b));
    assert Rows(f, Some(a)) == Rows(d, Some(a));
    OneTree(f, a);
    OneTree(d, a);
    ListedSize([lb, lc]);
    ListedSize([g]);
    ListedSize([f]);
    ListedSize([d]);
    assert ListedAll([f])[0] == Listed(f) && ListedAll([d])[0] == Listed(d);
    assert |Listed(f).children| == 2 && |Listed(d).children| == 1;
  }
}
