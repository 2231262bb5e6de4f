/** What a failing apply leaves behind: exactly when its rollback goes through. */
module RollbackExactness {
  import opened Options
  import opened MutationOps
  import opened MutationRollback

  // ---- Where an apply fails, and what it has touched by then ------------------------------------

  /** The part at which the first `k` parts fail. */
  ghost function FailsAt(op: Op, k: nat, root: Agent, h: Heap, m: Memory): (i: nat)
    requires Grounded(op) && op.what.Compound? && k <= |op.what.ops| && ApplyUpTo(op, k, root, h, m).error.Some?
    ensures i < k && ApplyUpTo(op, i, root, h, m).error.None?
    ensures var b := ApplyUpTo(op, i, root, h, m);
            var o := Apply(op.what.ops[i], root, b.heap, b.memory);
            o.error.Some? && ApplyUpTo(op, k, root, h, m) == Tried(op, i, root, o)
    decreases k
  {
    if ApplyUpTo(op, k - 1, root, h, m).error.Some? then FailsAt(op, k - 1, root, h, m) else k - 1
  }

  /** The op objects whose private state a failing apply has changed: the compounds that failed, and
      every op that was applied before the failure, a repeated object as often as it was applied. */
  ghost function Touched(op: Op, root: Agent, h: Heap, m: Memory): seq<Op>
    requires Grounded(op) && Apply(op, root, h, m).error.Some?
    decreases op.depth
  {
    if op.what.Primitive? then []
    else
      var i := FailsAt(op, |op.what.ops|, root, h, m);
      var b := ApplyUpTo(op, i, root, h, m);
      [op] + (NodesUpTo(op, i) + Touched(op.what.ops[i], root, b.heap, b.memory))
  }

  /** The error of the primitive edit that was refused. */
  ghost function Cause(op: Op, root: Agent, h: Heap, m: Memory): (e: Option<Error>)
    requires Grounded(op) && Apply(op, root, h, m).error.Some?
    ensures e.Some? && e != Some(UndoBeforeApply)
    decreases op.depth
  {
    if op.what.Primitive? then ApplyOne(op, root, h, m).error
    else
      var i := FailsAt(op, |op.what.ops|, root, h, m);
      var b := ApplyUpTo(op, i, root, h, m);
      Cause(op.what.ops[i], root, b.heap, b.memory)
  }

  lemma {:induction false} TouchedAreNodes(op: Op, root: Agent, h: Heap, m: Memory, x: Op)
    requires Grounded(op) && Apply(op, root, h, m).error.Some? && x in Touched(op, root, h, m)
    ensures x in Nodes(op)
    decreases op.depth
  {
    hide Apply, ApplyUpTo;
    var n := |op.what.ops|;
    var i := FailsAt(op, n, root, h, m);
    var b := ApplyUpTo(op, i, root, h, m);
    if x in Touched(op.what.ops[i], root, b.heap, b.memory) {
      TouchedAreNodes(op.what.ops[i], root, b.heap, b.memory, x);
      NodesGrow(op, i + 1, n);
    } else {
      NodesGrow(op, i, n);
    }
  }

  lemma {:induction false} FailedFrame(op: Op, root: Agent, h: Heap, m: Memory, x: Op)
    requires Grounded(op) && Apply(op, root, h, m).error.Some? && x !in Touched(op, root, h, m)
    ensures Get(Apply(op, root, h, m).memory, x) == Get(m, x)
    decreases op.depth
  {
    if op.what.Compound? {
      var i := FailsAt(op, |op.what.ops|, root, h, m);
      var b := ApplyUpTo(op, i, root, h, m);
      var part := op.what.ops[i];
      assert x in [op] + (NodesUpTo(op, i) + Touched(part, root, b.heap, b.memory)) <==>
             x == op || x in NodesUpTo(op, i) || x in Touched(part, root, b.heap, b.memory);
      ApplyUpToFrame(op, i, root, h, m, x);
      FailedFrame(part, root, b.heap, b.memory, x);
      TriedFrame(op, i, root, Apply(part, root, b.heap, b.memory), x);
    }
  }

  // ---- An undo is refused for its private state only ------------------------------------------------

  lemma {:induction false} ApplyKeys(op: Op, root: Agent, h: Heap, m: Memory)
    requires Grounded(op)
    ensures Apply(op, root, h, m).heap.Keys == h.Keys
    decreases op.depth, 1, 0
  {
    if op.what.Compound? {
      ApplyUpToKeys(op, |op.what.ops|, root, h, m);
    }
  }

  lemma {:induction false} ApplyUpToKeys(op: Op, k: nat, root: Agent, h: Heap, m: Memory)
    requires Grounded(op) && op.what.Compound? && k <= |op.what.ops|
    ensures ApplyUpTo(op, k, root, h, m).heap.Keys == h.Keys
    decreases op.depth, 0, k
  {
    if k > 0 {
      var before := ApplyUpTo(op, k - 1, root, h, m);
      ApplyUpToKeys(op, k - 1, root, h, m);
      if before.error.None? {
        var o := Apply(op.what.ops[k - 1], root, before.heap, before.memory);
        ApplyKeys(op.what.ops[k - 1], root, before.heap, before.memory);
        UndoDownKeys(op, k - 1, root, o.heap, o.memory);
      }
    }
  }

  lemma {:induction false} UndoKeys(op: Op, root: Agent, h: Heap, m: Memory)
    requires Grounded(op)
    ensures Undo(op, root, h, m).heap.Keys == h.Keys
    decreases op.depth, 1, 0
  {
    if op.what.Compound? {
      var count, n := Get(m, op).appliedCount, |op.what.ops|;
      UndoDownKeys(op, if count < n then count else n, root, h, m);
    }
  }

  lemma {:induction false} UndoDownKeys(op: Op, k: nat, root: Agent, h: Heap, m: Memory)
    requires Grounded(op) && op.what.Compound? && k <= |op.what.ops|
    ensures UndoDown(op, k, root, h, m).heap.Keys == h.Keys
    decreases op.depth, 0, k
  {
    if k > 0 {
      var o := Undo(op.what.ops[k - 1], root, h, m);
      UndoKeys(op.what.ops[k - 1], root, h, m);
      if o.error.None? {
        UndoDownKeys(op, k - 1, root, o.heap, o.memory);
      }
    }
  }

  /** Every primitive edit among `ns` finds its agent. */
  ghost predicate Targets(ns: seq<Op>, root: Agent, agents: set<Agent>) {
    forall x :: x in ns && x.what.Primitive? ==>
      Resolve(root, x.what.path).Some? && Resolve(root, x.what.path).value in agents
  }

  lemma {:induction false} AppliedTargets(op: Op, root: Agent, h: Heap, m: Memory)
    requires Grounded(op) && Apply(op, root, h, m).error.None?
    ensures Targets(Nodes(op), root, h.Keys)
    decreases op.depth, 1, 0
  {
    if op.what.Compound? {
      AppliedUpToTargets(op, |op.what.ops|, root, h, m);
    }
  }

  lemma {:induction false} AppliedUpToTargets(op: Op, k: nat, root: Agent, h: Heap, m: Memory)
    requires Grounded(op) && op.what.Compound? && k <= |op.what.ops| && ApplyUpTo(op, k, root, h, m).error.None?
    ensures Targets(NodesUpTo(op, k), root, h.Keys)
    decreases op.depth, 0, k
  {
    if k > 0 {
      var before := ApplyUpTo(op, k - 1, root, h, m);
      UpToSucceeded(op, k - 1, root, h, m, before);
      AppliedUpToTargets(op, k - 1, root, h, m);
      ApplyUpToKeys(op, k - 1, root, h, m);
      AppliedTargets(op.what.ops[k - 1], root, before.heap, before.memory);
    }
  }

  lemma {:induction false} UndoRefused(op: Op, root: Agent, h: Heap, m: Memory)
    requires Grounded(op) && Targets(Nodes(op), root, h.Keys)
    ensures Undo(op, root, h, m).error in {None, Some(UndoBeforeApply)}
    decreases op.depth, 1, 0
  {
    if op.what.Compound? {
      var count, n := Get(m, op).appliedCount, |op.what.ops|;
      var k := if count < n then count else n;
      NodesGrow(op, k, n);
      UndoDownRefused(op, k, root, h, m);
    } else {
      assert op in Nodes(op);
    }
  }

  lemma {:induction false} UndoDownRefused(op: Op, k: nat, root: Agent, h: Heap, m: Memory)
    requires Grounded(op) && op.what.Compound? && k <= |op.what.ops| && Targets(NodesUpTo(op, k), root, h.Keys)
    ensures UndoDown(op, k, root, h, m).error in {None, Some(UndoBeforeApply)}
    decreases op.depth, 0, k
  {
    if k > 0 {
      var o := Undo(op.what.ops[k - 1], root, h, m);
      UndoRefused(op.what.ops[k - 1], root, h, m);
      UndoKeys(op.what.ops[k - 1], root, h, m);
      if o.error.None? {
        UndoDownRefused(op, k - 1, root, o.heap, o.memory);
      }
    }
  }

  // ---- When rollback goes through -------------------------------------------------------------------

  lemma {:induction false} RollsBack(op: Op, root: Agent, h: Heap, m: Memory)
    requires Grounded(op) && Apply(op, root, h, m).error.Some? && Reversible(Touched(op, root, h, m))
    ensures var o := Apply(op, root, h, m);
            o.heap == h && o.error == Cause(op, root, h, m) && AllDisarmed(Touched(op, root, h, m), o.memory)
    decreases op.depth
  {
    if op.what.Compound? {
      var i := FailsAt(op, |op.what.ops|, root, h, m);
      var b := ApplyUpTo(op, i, root, h, m);
      var part, ns := op.what.ops[i], NodesUpTo(op, i);
      var ts, o := Touched(part, root, b.heap, b.memory), Apply(part, root, b.heap, b.memory);
      ReversibleSplits([op], ns + ts);
      ReversibleSplits(ns, ts);
      RollsBack(part, root, b.heap, b.memory);
      PartRollsBack(op, i, root, h, m, b, o, ts);
    }
  }

  /** After the failing part has cleaned up, the parts before it are undone. */
  lemma PartRollsBack(op: Op, i: nat, root: Agent, h: Heap, m: Memory, b: Outcome, o: Outcome, ts: seq<Op>)
    requires Grounded(op) && op.what.Compound? && i < |op.what.ops|
    requires b == ApplyUpTo(op, i, root, h, m) && b.error.None?
    requires o == Apply(op.what.ops[i], root, b.heap, b.memory) && o.error.Some? && o.heap == b.heap
    requires ts == Touched(op.what.ops[i], root, b.heap, b.memory) && AllDisarmed(ts, o.memory)
    requires Reversible(NodesUpTo(op, i)) && forall x :: x in NodesUpTo(op, i) ==> x !in ts
    ensures var t := Tried(op, i, root, o);
            t.heap == h && t.error == o.error && AllDisarmed([op] + (NodesUpTo(op, i) + ts), t.memory)
  {
    var ns := NodesUpTo(op, i);
    ApplyUpToArms(op, i, root, h, m);
    forall j | 0 <= j < |ns|
      ensures Get(b.memory, ns[j]) == Get(o.memory, ns[j])
    {
      assert ns[j] in ns;
      FailedFrame(op.what.ops[i], root, b.heap, b.memory, ns[j]);
    }
    UndoDownRestores(op, i, root, h, m, b, o.memory);
    assert AllEither(ns, o.memory);
    UndoDownTells(op, i, root, o.heap, o.memory);
    var u := UndoDown(op, i, root, o.heap, o.memory);
    forall j | 0 <= j < |ts|
      ensures Disarmed(ts[j], Get(u.memory, ts[j]))
    {
      assert ts[j] in ts;
      UndoDownFrame(op, i, root, o.heap, o.memory, ts[j]);
    }
    BothDisarmed(ns, ts, u.memory);
    NotTouchedBelow(op, i, root, b);
    DisarmedToo(u.memory, op, ns + ts);
  }

  lemma BothDisarmed(a: seq<Op>, b: seq<Op>, m: Memory)
    requires AllDisarmed(a, m) && AllDisarmed(b, m)
    ensures AllDisarmed(a + b, m)
  {
  }

  lemma NotTouchedBelow(op: Op, i: nat, root: Agent, b: Outcome)
    requires Grounded(op) && op.what.Compound? && i < |op.what.ops|
    requires Apply(op.what.ops[i], root, b.heap, b.memory).error.Some?
    ensures op !in NodesUpTo(op, i) + Touched(op.what.ops[i], root, b.heap, b.memory)
  {
    OpNotBelow(op, i);
    OpNotBelow(op, i + 1);
    forall x | x in Touched(op.what.ops[i], root, b.heap, b.memory)
      ensures x != op
    {
      TouchedAreNodes(op.what.ops[i], root, b.heap, b.memory, x);
    }
  }

  /** A rollback that is not refused has undone armed ops only, each once. */
  lemma {:induction false} RollbackTells(op: Op, root: Agent, h: Heap, m: Memory)
    requires Grounded(op) && Apply(op, root, h, m).error.Some?
    requires Apply(op, root, h, m).error != Some(UndoBeforeApply)
    ensures Reversible(Touched(op, root, h, m))
    decreases op.depth
  {
    if op.what.Compound? {
      var i := FailsAt(op, |op.what.ops|, root, h, m);
      var b := ApplyUpTo(op, i, root, h, m);
      var part := op.what.ops[i];
      var o := Apply(part, root, b.heap, b.memory);
      AppliedUpToTargets(op, i, root, h, m);
      ApplyUpToKeys(op, i, root, h, m);
      ApplyKeys(part, root, b.heap, b.memory);
      UndoDownRefused(op, i, root, o.heap, o.memory);
      RollbackTells(part, root, b.heap, b.memory);
      RollsBack(part, root, b.heap, b.memory);
      PartTellsToo(op, i, root, h, m, b, o, Touched(part, root, b.heap, b.memory));
    }
  }

  lemma PartTellsToo(op: Op, i: nat, root: Agent, h: Heap, m: Memory, b: Outcome, o: Outcome, ts: seq<Op>)
    requires Grounded(op) && op.what.Compound? && i < |op.what.ops|
    requires b == ApplyUpTo(op, i, root, h, m) && b.error.None?
    requires o == Apply(op.what.ops[i], root, b.heap, b.memory) && o.error.Some?
    requires ts == Touched(op.what.ops[i], root, b.heap, b.memory) && AllDisarmed(ts, o.memory) && Reversible(ts)
    requires UndoDown(op, i, root, o.heap, o.memory).error.None?
    ensures Reversible([op] + (NodesUpTo(op, i) + ts))
  {
    var ns := NodesUpTo(op, i);
    ApplyUpToArms(op, i, root, h, m);
    forall j | 0 <= j < |ns|
      ensures Armed(ns[j], Get(o.memory, ns[j])) || Disarmed(ns[j], Get(o.memory, ns[j]))
    {
      if ns[j] in ts {
        DisarmedIn(ts, o.memory, ns[j]);
      } else {
        FailedFrame(op.what.ops[i], root, b.heap, b.memory, ns[j]);
      }
    }
    UndoDownTells(op, i, root, o.heap, o.memory);
    forall j | 0 <= j < |ts|
      ensures ts[j] !in ns
    {
      forall l | 0 <= l < |ns|
        ensures ns[l] != ts[j]
      {
        assert Armed(ns[l], Get(o.memory, ns[l])) && Disarmed(ts[j], Get(o.memory, ts[j]));
      }
    }
    ReversibleJoins(ns, ts);
    NotTouchedBelow(op, i, root, b);
    ReversibleJoins([op], ns + ts);
  }

  /** EXACTLY WHEN. A failing apply leaves every agent as it was and reports the error of the edit that
      was refused, if and only if none of the ops applied before the failure is applied twice and none
      is an empty compound; otherwise a rollback stops and reports that instead. */
  lemma RollbackSucceedsIff(op: Op, root: Agent, h: Heap, m: Memory)
    requires Grounded(op) && Apply(op, root, h, m).error.Some?
    ensures Apply(op, root, h, m).error != Some(UndoBeforeApply) <==> Reversible(Touched(op, root, h, m))
    ensures Reversible(Touched(op, root, h, m)) ==>
            Apply(op, root, h, m).heap == h && Apply(op, root, h, m).error == Cause(op, root, h, m)
  {
    if Reversible(Touched(op, root, h, m)) {
      RollsBack(op, root, h, m);
    } else if Apply(op, root, h, m).error != Some(UndoBeforeApply) {
      RollbackTells(op, root, h, m);
    }
  }

  /** For a compound whose failing part is a primitive edit, the ops that count are the parts before. */
  lemma FlatRollbackIff(op: Op, k: nat, root: Agent, h: Heap, m: Memory)
    requires Grounded(op) && op.what.Compound? && k < |op.what.ops| && op.what.ops[k].what.Primitive?
    requires ApplyUpTo(op, k, root, h, m).error.None? && ApplyUpTo(op, k + 1, root, h, m).error.Some?
    ensures var b := ApplyUpTo(op, k, root, h, m);
            var u := UndoDown(op, k, root, b.heap, b.memory);
            (u.error.None? <==> Reversible(NodesUpTo(op, k))) && (u.error.None? ==> u.heap == h)
  {
    var b := ApplyUpTo(op, k, root, h, m);
    ApplyUpToArms(op, k, root, h, m);
    assert AllEither(NodesUpTo(op, k), b.memory);
    if Reversible(NodesUpTo(op, k)) {
      UndoDownRestores(op, k, root, h, m, b, b.memory);
    } else if UndoDown(op, k, root, b.heap, b.memory).error.None? {
      UndoDownTells(op, k, root, b.heap, b.memory);
    }
  }

  // ---- What can be checked before applying ------------------------------------------------------------

  lemma {:induction false} NodesSplit(op: Op, i: nat, n: nat) returns (rest: seq<Op>)
    requires Grounded(op) && op.what.Compound? && i <= n <= |op.what.ops|
    ensures NodesUpTo(op, n) == NodesUpTo(op, i) + rest
    decreases n
  {
    if i == n {
      rest := [];
    } else {
      var r := NodesSplit(op, i, n - 1);
      rest := r + Nodes(op.what.ops[n - 1]);
    }
  }

  lemma {:induction false} TouchedReversible(op: Op, root: Agent, h: Heap, m: Memory)
    requires Grounded(op) && Apply(op, root, h, m).error.Some? && Reversible(Nodes(op))
    ensures Reversible(Touched(op, root, h, m))
    decreases op.depth
  {
    if op.what.Compound? {
      var i := FailsAt(op, |op.what.ops|, root, h, m);
      var b := ApplyUpTo(op, i, root, h, m);
      PrefixReversible(op, i);
      TouchedReversible(op.what.ops[i], root, b.heap, b.memory);
      TouchedJoins(op, i, root, b, Touched(op.what.ops[i], root, b.heap, b.memory));
    }
  }

  lemma PrefixReversible(op: Op, i: nat)
    requires Grounded(op) && op.what.Compound? && i < |op.what.ops| && Reversible(Nodes(op))
    ensures Reversible(NodesUpTo(op, i)) && Reversible(Nodes(op.what.ops[i]))
    ensures forall x :: x in NodesUpTo(op, i) ==> x !in Nodes(op.what.ops[i])
  {
    var n := |op.what.ops|;
    var rest := NodesSplit(op, i + 1, n);
    ReversibleSplits([op], NodesUpTo(op, n));
    ReversibleSplits(NodesUpTo(op, i) + Nodes(op.what.ops[i]), rest);
    ReversibleSplits(NodesUpTo(op, i), Nodes(op.what.ops[i]));
  }

  lemma TouchedJoins(op: Op, i: nat, root: Agent, b: Outcome, ts: seq<Op>)
    requires Grounded(op) && op.what.Compound? && i < |op.what.ops|
    requires Apply(op.what.ops[i], root, b.heap, b.memory).error.Some?
    requires ts == Touched(op.what.ops[i], root, b.heap, b.memory) && Reversible(ts) && Reversible(NodesUpTo(op, i))
    requires forall x :: x in NodesUpTo(op, i) ==> x !in Nodes(op.what.ops[i])
    ensures Reversible([op] + (NodesUpTo(op, i) + ts))
  {
    forall j | 0 <= j < |ts|
      ensures ts[j] !in NodesUpTo(op, i)
    {
      TouchedAreNodes(op.what.ops[i], root, b.heap, b.memory, ts[j]);
    }
    ReversibleJoins(NodesUpTo(op, i), ts);
    NotTouchedBelow(op, i, root, b);
    ReversibleJoins([op], NodesUpTo(op, i) + ts);
  }

  /** A FAILED APPLY CHANGES NOTHING, wherever it fails, if no op object occurs twice and no compound is
      empty: every agent keeps every field, and the error is the refused edit's own. */
  lemma FailedApplyRestores(op: Op, root: Agent, h: Heap, m: Memory)
    requires Grounded(op) && Reversible(Nodes(op)) && Apply(op, root, h, m).error.Some?
    ensures Apply(op, root, h, m).heap == h && Apply(op, root, h, m).error == Cause(op, root, h, m)
  {
    TouchedReversible(op, root, h, m);
    RollsBack(op, root, h, m);
  }

  // ---- Two ways to break rollback ---------------------------------------------------------------------

  /** An op object used twice breaks rollback as well: the second undo of it is refused, and the
      target keeps one of the two appended rules. */
  lemma RepeatBreaksRollback(c: Op, a: Op, f: Op, root: Agent, h: Heap, m: Memory, path: string, rule: string)
    requires Grounded(c) && c.what == Compound([a, a, f])
    requires a.what == Primitive(path, AppendRule(rule)) && f.what == Primitive("", AppendExample(None))
    requires Resolve(root, path).Some? && Resolve(root, path).value in h
    ensures var t := Resolve(root, path).value;
            Apply(c, root, h, m).error == Some(UndoBeforeApply) &&
            Apply(c, root, h, m).heap == h[t := h[t].(rules := h[t].rules + [rule])]
  {
    var t := Resolve(root, path).value;
    var rules := h[t].rules;
    var ops := [a, a, f];
    assert c.what.ops == ops && ops[0] == a && ops[1] == a && ops[2] == f && |ops| == 3;
    var s0 := ApplyUpTo(c, 0, root, h, m);
    var s1 := ApplyUpTo(c, 1, root, h, m);
    OneMore(c, 0, root, h, m, s0.heap, s0.memory);
    assert s1.error.None? && s1.heap == h[t := h[t].(rules := rules + [rule])];
    var s2 := ApplyUpTo(c, 2, root, h, m);
    OneMore(c, 1, root, h, m, s1.heap, s1.memory);
    assert s2.error.None? && s2.heap == h[t := h[t].(rules := rules + [rule] + [rule])];
    assert Get(s2.memory, a).snapshot == Rules(rules + [rule]);
    var o := Apply(f, root, s2.heap, s2.memory);
    assert o.error == Some(BadValue) && o.heap == s2.heap && o.memory == s2.memory;
    var u := Undo(a, root, s2.heap, s2.memory);
    assert u.error.None? && u.heap == s1.heap && Get(u.memory, a).snapshot == Nothing;
    assert UndoDown(c, 1, root, u.heap, u.memory) == Outcome(Some(UndoBeforeApply), u.heap, u.memory);
    assert UndoDown(c, 2, root, s2.heap, s2.memory) == UndoDown(c, 1, root, u.heap, u.memory);
    OneMore(c, 2, root, h, m, s2.heap, s2.memory);
  }

  /** An empty compound breaks it too: it cannot be undone, so the edit before it stays. */
  lemma EmptyBreaksRollback(c: Op, a: Op, e: Op, f: Op, root: Agent, h: Heap, m: Memory, path: string, rule: string)
    requires Grounded(c) && c.what == Compound([a, e, f]) && e.what == Compound([])
    requires a.what == Primitive(path, AppendRule(rule)) && f.what == Primitive("", AppendExample(None))
    requires Resolve(root, path).Some? && Resolve(root, path).value in h
    ensures var t := Resolve(root, path).value;
            Apply(c, root, h, m).error == Some(UndoBeforeApply) &&
            Apply(c, root, h, m).heap == h[t := h[t].(rules := h[t].rules + [rule])]
  {
    var t := Resolve(root, path).value;
    var ops := [a, e, f];
    assert c.what.ops == ops && ops[0] == a && ops[1] == e && ops[2] == f && |ops| == 3;
    var s0 := ApplyUpTo(c, 0, root, h, m);
    var s1 := ApplyUpTo(c, 1, root, h, m);
    OneMore(c, 0, root, h, m, s0.heap, s0.memory);
    assert s1.error.None? && s1.heap == h[t := h[t].(rules := h[t].rules + [rule])];
    var s2 := ApplyUpTo(c, 2, root, h, m);
    OneMore(c, 1, root, h, m, s1.heap, s1.memory);
    assert Apply(e, root, s1.heap, s1.memory) == Outcome(None, s1.heap, Counted(s1.memory, e, 0));
    assert s2.error.None? && s2.heap == s1.heap && e != c && Get(s2.memory, e).appliedCount == 0;
    assert Apply(f, root, s2.heap, s2.memory) == Outcome(Some(BadValue), s2.heap, s2.memory);
    assert Undo(e, root, s2.heap, s2.memory) == Outcome(Some(UndoBeforeApply), s2.heap, s2.memory);
    assert UndoDown(c, 2, root, s2.heap, s2.memory) == Undo(e, root, s2.heap, s2.memory);
    OneMore(c, 2, root, h, m, s2.heap, s2.memory);
  }

  /** Applying an op to live agents and undoing it: no field of any agent is changed. */
  method ApplyThenUndo(op: Op, root: Agent, ghost agents: set<Agent>, ghost ops: set<Op>) returns (error: Option<Error>)
    requires Grounded(op) && Among(op, ops) && Reversible(Nodes(op)) && root in agents && Closed(agents)
    modifies agents, ops
    ensures HeapOf(agents) == old(HeapOf(agents))
    ensures error != Some(UndoBeforeApply)
  {
    ghost var h, m := HeapOf(agents), MemoryOf(ops);
    error := op.ApplyOp(root, agents, ops);
    if error.Some? {
      FailedApplyRestores(op, root, h, m);
      return;
    }
    UndoRestores(op, root, h, m, MemoryOf(ops));
    error := op.UndoOp(root, agents, ops);
  }
}
