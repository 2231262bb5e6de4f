/** What applying an op writes: its primitive edits one after the other, each at its own path. */
module MutationEdits {
  import opened Options
  import opened MutationOps

  // ---- Paths ----------------------------------------------------------------------------------

  lemma {:induction false} SplitWord(k: string)
    requires '.' !in k
    ensures Split(k) == [k]
  {
    if |k| > 0 {
      var init, last := k[..|k| - 1], k[|k| - 1];
      assert last in k && k == init + [last];
      SplitWord(init);
    }
  }

  lemma {:induction false} SplitSnoc(p: string, k: string)
    requires '.' !in k
    ensures Split(p + "." + k) == Split(p) + [k]
    decreases |k|
  {
    var s := p + "." + k;
    if |k| == 0 {
      assert s[..|s| - 1] == p;
    } else {
      var init, last := k[..|k| - 1], k[|k| - 1];
      assert last in k && k == init + [last];
      assert s[..|s| - 1] == p + "." + init;
      SplitSnoc(p, init);
      var parts := Split(p) + [init];
      assert parts[..|parts| - 1] == Split(p) && parts[|parts| - 1] == init;
    }
  }

  function ChildOf(a: Option<Agent>, k: string): Option<Agent> {
    if a.Some? && k in a.value.children then Some(a.value.children[k]) else None
  }

  lemma WalkNowhere(root: Agent)
    ensures Walk(root, []) == Some(root)
  {
  }

  lemma WalkSnoc(root: Agent, segments: seq<string>, k: string)
    ensures Walk(root, segments + [k]) == ChildOf(Walk(root, segments), k)
  {
    assert (segments + [k])[..|segments|] == segments;
  }

  /** A PATH IS FOLLOWED SEGMENT BY SEGMENT from the root: the empty one leads to the root, and each
      further name to the child under that attribute. */
  lemma ResolveFollows(root: Agent, p: string, k: string)
    requires '.' !in k
    ensures Resolve(root, "") == Some(root)
    ensures k != "" ==> Resolve(root, k) == ChildOf(Some(root), k)
    ensures p != "" ==> Resolve(root, p + "." + k) == ChildOf(Resolve(root, p), k)
  {
    hide Walk, Split;
    SplitWord(k);
    SplitSnoc(p, k);
    WalkSnoc(root, [], k);
    WalkSnoc(root, Split(p), k);
    assert [] + [k] == [k] && Walk(root, []) == Some(root) by {
      WalkNowhere(root);
    }
    assert |p + "." + k| > 0;
  }

  // ---- Nested ops -------------------------------------------------------------------------------

  /** The primitive edits of an op in the order in which they stand. */
  ghost function Leaves(op: Op): seq<Op>
    requires Grounded(op)
    decreases op.depth, 1, 0
  {
    if op.what.Primitive? then [op] else LeavesUpTo(op, |op.what.ops|)
  }

  ghost function LeavesUpTo(op: Op, k: nat): seq<Op>
    requires Grounded(op) && op.what.Compound? && k <= |op.what.ops|
    decreases op.depth, 0, k
  {
    if k == 0 then [] else LeavesUpTo(op, k - 1) + Leaves(op.what.ops[k - 1])
  }

  /** `heaps` are the states between the edits. */
  ghost predicate OneByOne(root: Agent, edits: seq<Op>, heaps: seq<Heap>) {
    && |heaps| == |edits| + 1
    && forall i :: 0 <= i < |edits| ==> StepAt(root, edits, heaps, i)
  }

  ghost predicate StepAt(root: Agent, edits: seq<Op>, heaps: seq<Heap>, i: nat)
    requires i < |edits| && |heaps| == |edits| + 1
  {
    edits[i].what.Primitive? && Edited(root, edits[i].what.path, edits[i].what.action, heaps[i], heaps[i + 1])
  }

  lemma OneByOneJoins(root: Agent, a: seq<Op>, hs: seq<Heap>, b: seq<Op>, gs: seq<Heap>)
    requires OneByOne(root, a, hs) && OneByOne(root, b, gs) && hs[|a|] == gs[0]
    ensures OneByOne(root, a + b, hs + gs[1..])
  {
    var all := hs + gs[1..];
    forall i | 0 <= i < |a + b|
      ensures StepAt(root, a + b, all, i)
    {
      if i < |a| {
        assert StepAt(root, a, hs, i);
      } else {
        assert StepAt(root, b, gs, i - |a|);
        assert all[i] == gs[i - |a|] && all[i + 1] == gs[i - |a| + 1];
      }
    }
  }

  /** EVERY EDIT, ONCE AND IN ORDER: an apply that goes through has made each primitive edit of the
      nesting, first to last, each on what the one before left. */
  lemma {:induction false} AppliedInOrder(op: Op, root: Agent, h: Heap, m: Memory) returns (heaps: seq<Heap>)
    requires Grounded(op) && Apply(op, root, h, m).error.None?
    ensures OneByOne(root, Leaves(op), heaps)
    ensures heaps[0] == h && heaps[|Leaves(op)|] == Apply(op, root, h, m).heap
    decreases op.depth, 1, 0
  {
    if op.what.Primitive? {
      ApplyOneEdits(op, root, h, m);
      heaps := [h, Apply(op, root, h, m).heap];
      assert StepAt(root, [op], heaps, 0);
    } else {
      heaps := AppliedUpTo(op, |op.what.ops|, root, h, m);
    }
  }

  lemma {:induction false} AppliedUpTo(op: Op, k: nat, root: Agent, h: Heap, m: Memory) returns (heaps: seq<Heap>)
    requires Grounded(op) && op.what.Compound? && k <= |op.what.ops| && ApplyUpTo(op, k, root, h, m).error.None?
    ensures OneByOne(root, LeavesUpTo(op, k), heaps)
    ensures heaps[0] == h && heaps[|LeavesUpTo(op, k)|] == ApplyUpTo(op, k, root, h, m).heap
    decreases op.depth, 0, k
  {
    if k == 0 {
      heaps := [h];
    } else {
      var part, before := op.what.ops[k - 1], ApplyUpTo(op, k - 1, root, h, m);
      PartWentThrough(op, k - 1, k, root, h, m, before);
      var hs := AppliedUpTo(op, k - 1, root, h, m);
      var gs := AppliedInOrder(part, root, before.heap, before.memory);
      OneByOneJoins(root, LeavesUpTo(op, k - 1), hs, Leaves(part), gs);
      heaps := hs + gs[1..];
    }
  }

  lemma PartWentThrough(op: Op, i: nat, k: nat, root: Agent, h: Heap, m: Memory, before: Outcome)
    requires Grounded(op) && op.what.Compound? && k == i + 1 <= |op.what.ops|
    requires before == ApplyUpTo(op, i, root, h, m) && ApplyUpTo(op, k, root, h, m).error.None?
    ensures before.error.None?
    ensures Apply(op.what.ops[i], root, before.heap, before.memory).error.None?
    ensures Apply(op.what.ops[i], root, before.heap, before.memory).heap == ApplyUpTo(op, k, root, h, m).heap
  {
  }
}
