/** Mutation ops are transactions: what undo and rollback restore, and exactly when. A successful
    apply arms every op of a nesting, each with its own snapshot, and undo disarms them in the
    opposite order. */
module MutationRollback {
  import opened Options
  import opened MutationOps

  /** The op objects of an op, itself first, a repeated object as often as it occurs. */
  ghost function Nodes(op: Op): (ns: seq<Op>)
    requires Grounded(op)
    ensures |ns| >= 1 && ns[0] == op
    decreases op.depth, 1, 0
  {
    [op] + if op.what.Compound? then NodesUpTo(op, |op.what.ops|) else []
  }

  ghost function NodesUpTo(op: Op, k: nat): seq<Op>
    requires Grounded(op) && op.what.Compound? && k <= |op.what.ops|
    decreases op.depth, 0, k
  {
    if k == 0 then [] else NodesUpTo(op, k - 1) + Nodes(op.what.ops[k - 1])
  }

  ghost predicate NoRepeat(ns: seq<Op>) {
    forall i, j :: 0 <= i < j < |ns| ==> ns[i] != ns[j]
  }

  ghost predicate NoneEmpty(ns: seq<Op>) {
    forall i :: 0 <= i < |ns| ==> ns[i].what.Compound? ==> |ns[i].what.ops| > 0
  }

  /** What a caller can check before applying: no op object occurs twice, no compound is empty. */
  ghost predicate Reversible(ns: seq<Op>) {
    NoRepeat(ns) && NoneEmpty(ns)
  }

  lemma ReversibleSplits(a: seq<Op>, b: seq<Op>)
    requires Reversible(a + b)
    ensures Reversible(a) && Reversible(b) && forall x :: x in a ==> x !in b
  {
    forall i | 0 <= i < |a|
      ensures (a + b)[i] == a[i] && a[i] !in b
    {
      forall j | 0 <= j < |b|
        ensures b[j] != a[i]
      {
        assert (a + b)[i] != (a + b)[|a| + j];
      }
    }
    forall i, j | 0 <= i < j < |b|
      ensures b[i] != b[j]
    {
      assert (a + b)[|a| + i] != (a + b)[|a| + j];
    }
    forall i | 0 <= i < |b|
      ensures b[i].what.Compound? ==> |b[i].what.ops| > 0
    {
      assert (a + b)[|a| + i] == b[i];
    }
    assert forall i :: 0 <= i < |a| ==> (a + b)[i] == a[i];
  }

  lemma ReversibleJoins(a: seq<Op>, b: seq<Op>)
    requires Reversible(a) && Reversible(b) && forall i :: 0 <= i < |b| ==> b[i] !in a
    ensures Reversible(a + b)
  {
    forall i, j | 0 <= i < j < |a + b|
      ensures (a + b)[i] != (a + b)[j]
    {
      if i < |a| <= j {
        assert (a + b)[i] in a && (a + b)[j] == b[j - |a|];
      }
    }
  }

  // ---- An op touches its own nodes' private state only -------------------------------------

  lemma {:induction false} UndoFrame(op: Op, root: Agent, h: Heap, m: Memory, x: Op)
    requires Grounded(op) && x !in Nodes(op)
    ensures Get(Undo(op, root, h, m).memory, x) == Get(m, x)
    decreases op.depth, 1, 0
  {
    if op.what.Compound? {
      assert x != op && x !in NodesUpTo(op, |op.what.ops|) by {
        assert Nodes(op) == [op] + NodesUpTo(op, |op.what.ops|);
      }
      var count, n := Get(m, op).appliedCount, |op.what.ops|;
      var k := if count < n then count else n;
      NodesGrow(op, k, n);
      UndoDownFrame(op, k, root, h, m, x);
    }
  }

  lemma {:induction false} NodesGrow(op: Op, k: nat, n: nat)
    requires Grounded(op) && op.what.Compound? && k <= n <= |op.what.ops|
    ensures forall x :: x in NodesUpTo(op, k) ==> x in NodesUpTo(op, n)
  {
    if k < n {
      NodesGrow(op, k, n - 1);
    }
  }

  lemma {:induction false} UndoDownFrame(op: Op, k: nat, root: Agent, h: Heap, m: Memory, x: Op)
    requires Grounded(op) && op.what.Compound? && k <= |op.what.ops|
    requires x !in NodesUpTo(op, k)
    ensures Get(UndoDown(op, k, root, h, m).memory, x) == Get(m, x)
    decreases op.depth, 0, k
  {
    if k > 0 {
      UndoFrame(op.what.ops[k - 1], root, h, m, x);
      var o := Undo(op.what.ops[k - 1], root, h, m);
      if o.error.None? {
        UndoDownFrame(op, k - 1, root, o.heap, o.memory, x);
      }
    }
  }

  lemma {:induction false} ApplyFrame(op: Op, root: Agent, h: Heap, m: Memory, x: Op)
    requires Grounded(op) && x !in Nodes(op)
    ensures Get(Apply(op, root, h, m).memory, x) == Get(m, x)
    decreases op.depth, 1, 0
  {
    if op.what.Compound? {
      ApplyUpToFrame(op, |op.what.ops|, root, h, m, x);
    }
  }

  lemma {:induction false} ApplyUpToFrame(op: Op, k: nat, root: Agent, h: Heap, m: Memory, x: Op)
    requires Grounded(op) && op.what.Compound? && k <= |op.what.ops|
    requires x != op && x !in NodesUpTo(op, k)
    ensures Get(ApplyUpTo(op, k, root, h, m).memory, x) == Get(m, x)
    decreases op.depth, 0, k
  {
    if k > 0 {
      ApplyUpToFrame(op, k - 1, root, h, m, x);
      var before := ApplyUpTo(op, k - 1, root, h, m);
      if before.error.None? {
        var o := Apply(op.what.ops[k - 1], root, before.heap, before.memory);
        ApplyFrame(op.what.ops[k - 1], root, before.heap, before.memory, x);
        TriedFrame(op, k - 1, root, o, x);
      }
    }
  }

  lemma TriedFrame(op: Op, k: nat, root: Agent, o: Outcome, x: Op)
    requires Grounded(op) && op.what.Compound? && k < |op.what.ops|
    requires x != op && x !in NodesUpTo(op, k)
    ensures Get(Tried(op, k, root, o).memory, x) == Get(o.memory, x)
  {
    if o.error.Some? {
      UndoDownFrame(op, k, root, o.heap, o.memory, x);
    }
  }

  // ---- A successful apply arms every node -----------------------------------------------------

  predicate Armed(x: Op, memo: Memo) {
    match x.what
    case Primitive(_, _) => memo.snapshot != Nothing
    case Compound(ops) => memo.appliedCount == |ops|
  }

  predicate Disarmed(x: Op, memo: Memo) {
    match x.what
    case Primitive(_, _) => memo.snapshot == Nothing
    case Compound(_) => memo.appliedCount == 0
  }

  ghost predicate AllArmed(ns: seq<Op>, m: Memory) {
    forall i :: 0 <= i < |ns| ==> Armed(ns[i], Get(m, ns[i]))
  }

  lemma {:induction false} ApplyArms(op: Op, root: Agent, h: Heap, m: Memory)
    requires Grounded(op)
    requires Apply(op, root, h, m).error.None?
    ensures AllArmed(Nodes(op), Apply(op, root, h, m).memory)
    decreases op.depth, 1, 0
  {
    if op.what.Compound? {
      OpNotBelow(op, |op.what.ops|);
      ApplyUpToArms(op, |op.what.ops|, root, h, m);
    }
  }

  /** Parts up to `k + 1` succeeded: the ones before did, and part `k` did after them. */
  lemma UpToSucceeded(op: Op, k: nat, root: Agent, h: Heap, m: Memory, before: Outcome)
    requires Grounded(op) && op.what.Compound? && k < |op.what.ops|
    requires before == ApplyUpTo(op, k, root, h, m) && ApplyUpTo(op, k + 1, root, h, m).error.None?
    ensures before.error.None?
    ensures var o := Apply(op.what.ops[k], root, before.heap, before.memory);
            o.error.None? && ApplyUpTo(op, k + 1, root, h, m) == Outcome(None, o.heap, Counted(o.memory, op, k + 1))
  {
  }

  lemma {:induction false} ApplyUpToArms(op: Op, k: nat, root: Agent, h: Heap, m: Memory)
    requires Grounded(op) && op.what.Compound? && k <= |op.what.ops|
    requires ApplyUpTo(op, k, root, h, m).error.None?
    ensures var m' := ApplyUpTo(op, k, root, h, m).memory;
            Get(m', op).appliedCount == k && AllArmed(NodesUpTo(op, k), m')
    decreases op.depth, 0, k
  {
    if k > 0 {
      var before := ApplyUpTo(op, k - 1, root, h, m);
      UpToSucceeded(op, k - 1, root, h, m, before);
      ApplyUpToArms(op, k - 1, root, h, m);
      OneMoreArms(op, k - 1, root, before);
    }
  }

  lemma OneMoreArms(op: Op, k: nat, root: Agent, before: Outcome)
    requires Grounded(op) && op.what.Compound? && k < |op.what.ops|
    requires AllArmed(NodesUpTo(op, k), before.memory)
    requires Apply(op.what.ops[k], root, before.heap, before.memory).error.None?
    ensures AllArmed(NodesUpTo(op, k + 1),
                     Counted(Apply(op.what.ops[k], root, before.heap, before.memory).memory, op, k + 1))
    decreases op.depth, 0, k
  {
    OpNotBelow(op, k);
    OpNotBelow(op, k + 1);
    ApplyArms(op.what.ops[k], root, before.heap, before.memory);
    StillArmed(NodesUpTo(op, k), op.what.ops[k], root, before, op, k + 1);
  }

  lemma OpNotBelow(op: Op, k: nat)
    requires Grounded(op) && op.what.Compound? && k <= |op.what.ops|
    ensures op !in NodesUpTo(op, k)
    ensures k > 0 ==> op !in Nodes(op.what.ops[k - 1])
  {
    forall x | x in NodesUpTo(op, k)
      ensures x != op
    {
      NodesUpToAreLower(op, k, x);
    }
    if k > 0 {
      var part := op.what.ops[k - 1];
      var ns := Nodes(part);
      forall x | x in ns
        ensures x != op
      {
        NodesAreLower(part, x);
      }
    }
  }

  lemma {:induction false} NodesAreLower(op: Op, x: Op)
    requires Grounded(op) && x in Nodes(op)
    ensures x.depth <= op.depth
    decreases op.depth, 1, 0
  {
    if x != op {
      NodesUpToAreLower(op, |op.what.ops|, x);
    }
  }

  lemma {:induction false} NodesUpToAreLower(op: Op, k: nat, x: Op)
    requires Grounded(op) && op.what.Compound? && k <= |op.what.ops| && x in NodesUpTo(op, k)
    ensures x.depth < op.depth
    decreases op.depth, 0, k
  {
    if x in NodesUpTo(op, k - 1) {
      NodesUpToAreLower(op, k - 1, x);
    } else {
      NodesAreLower(op.what.ops[k - 1], x);
    }
  }

  /** Applying one more part keeps the armed ops armed, also those it contains itself. */
  lemma StillArmed(ns: seq<Op>, part: Op, root: Agent, before: Outcome, op: Op, k: nat)
    requires Grounded(part)
    requires AllArmed(ns, before.memory) && op !in ns && op !in Nodes(part)
    requires var o := Apply(part, root, before.heap, before.memory); o.error.None? && AllArmed(Nodes(part), o.memory)
    ensures AllArmed(ns + Nodes(part), Counted(Apply(part, root, before.heap, before.memory).memory, op, k))
  {
    var o := Apply(part, root, before.heap, before.memory);
    var parts := Nodes(part);
    forall i | 0 <= i < |ns|
      ensures ns[i] != op && Armed(ns[i], Get(o.memory, ns[i]))
    {
      if ns[i] in parts {
        var j :| 0 <= j < |parts| && parts[j] == ns[i];
        assert Armed(parts[j], Get(o.memory, parts[j]));
      } else {
        ApplyFrame(part, root, before.heap, before.memory, ns[i]);
      }
    }
    forall i | 0 <= i < |parts|
      ensures parts[i] != op
    {
      assert parts[i] in parts;
    }
  }

  // ---- Undo and rollback restore ----------------------------------------------------------------

  /** Two memories agree on the private state of the nodes. */
  ghost predicate Agree(m: Memory, m': Memory, ns: seq<Op>) {
    forall i :: 0 <= i < |ns| ==> Get(m, ns[i]) == Get(m', ns[i])
  }

  /** UNDO RESTORES. After a successful apply, undo puts every field of every agent back, whatever
      happened to the private state of other ops in between, and however paths overlap. */
  lemma {:induction false} UndoRestores(op: Op, root: Agent, h: Heap, m: Memory, m2: Memory)
    requires Grounded(op) && Reversible(Nodes(op))
    requires Apply(op, root, h, m).error.None? && Agree(Apply(op, root, h, m).memory, m2, Nodes(op))
    ensures var u := Undo(op, root, Apply(op, root, h, m).heap, m2); u.error.None? && u.heap == h
    decreases op.depth, 1, 0
  {
    match op.what
    case Primitive(_, _) => UndoOneRestores(op, root, h, m, m2);
    case Compound(ops) =>
      var n := |ops|;
      assert Nodes(op) == [op] + NodesUpTo(op, n);
      ReversibleSplits([op], NodesUpTo(op, n));
      var m' := Apply(op, root, h, m).memory;
      AgreeSplits(m', m2, [op], NodesUpTo(op, n));
      ApplyUpToArms(op, n, root, h, m);
      assert Get(m2, Nodes(op)[0]).appliedCount == n;
      assert Nodes(op)[0].what.Compound?;
      UndoDownRestores(op, n, root, h, m, ApplyUpTo(op, n, root, h, m), m2);
  }

  lemma UndoOneRestores(op: Op, root: Agent, h: Heap, m: Memory, m2: Memory)
    requires Grounded(op) && op.what.Primitive?
    requires ApplyOne(op, root, h, m).error.None? && Get(ApplyOne(op, root, h, m).memory, op) == Get(m2, op)
    ensures var u := UndoOne(op, root, ApplyOne(op, root, h, m).heap, m2); u.error.None? && u.heap == h
  {
    var t := Resolve(root, op.what.path).value;
    var f' := Edit(op.what.action, h[t]).value;
    assert PutBack(Taken(op.what.action, h[t]), f') == h[t];
    assert h[t := f'][t := h[t]] == h;
  }

  lemma AgreeSplits(m: Memory, m2: Memory, a: seq<Op>, b: seq<Op>)
    requires Agree(m, m2, a + b)
    ensures Agree(m, m2, a) && Agree(m, m2, b)
  {
    assert forall i :: 0 <= i < |a| ==> (a + b)[i] == a[i];
    forall i | 0 <= i < |b|
      ensures Get(m, b[i]) == Get(m2, b[i])
    {
      assert (a + b)[|a| + i] == b[i];
    }
  }

  lemma {:induction false} UndoDownRestores(op: Op, k: nat, root: Agent, h: Heap, m: Memory, after: Outcome, m2: Memory)
    requires Grounded(op) && op.what.Compound? && k <= |op.what.ops| && Reversible(NodesUpTo(op, k))
    requires after == ApplyUpTo(op, k, root, h, m) && after.error.None?
    requires Agree(after.memory, m2, NodesUpTo(op, k))
    ensures var u := UndoDown(op, k, root, after.heap, m2); u.error.None? && u.heap == h
    decreases op.depth, 0, k, 0
  {
    hide Apply, Undo, Nodes;
    if k > 0 {
      var before := ApplyUpTo(op, k - 1, root, h, m);
      UpToSucceeded(op, k - 1, root, h, m, before);
      var o := Apply(op.what.ops[k - 1], root, before.heap, before.memory);
      assert after.heap == o.heap;
      LastPartRestores(op, k - 1, root, before, o, m2, Undo(op.what.ops[k - 1], root, o.heap, m2));
      EarlierPartsRestore(op, k - 1, root, h, m, before, after.heap, m2);
    }
  }

  lemma EarlierPartsRestore(op: Op, k: nat, root: Agent, h: Heap, m: Memory, before: Outcome, h2: Heap, m2: Memory)
    requires Grounded(op) && op.what.Compound? && k < |op.what.ops| && Reversible(NodesUpTo(op, k))
    requires before == ApplyUpTo(op, k, root, h, m) && before.error.None?
    requires var u := Undo(op.what.ops[k], root, h2, m2);
             u.error.None? && u.heap == before.heap && Agree(before.memory, u.memory, NodesUpTo(op, k))
    ensures var u := UndoDown(op, k + 1, root, h2, m2); u.error.None? && u.heap == h
    decreases op.depth, 0, k, 1
  {
    var u := Undo(op.what.ops[k], root, h2, m2);
    UndoDownRestores(op, k, root, h, m, before, u.memory);
    OneLessUndo(op, k, root, h2, m2);
  }

  lemma OneLessUndo(op: Op, k: nat, root: Agent, h: Heap, m: Memory)
    requires Grounded(op) && op.what.Compound? && k < |op.what.ops|
    requires Undo(op.what.ops[k], root, h, m).error.None?
    ensures var u := Undo(op.what.ops[k], root, h, m);
            UndoDown(op, k + 1, root, h, m) == UndoDown(op, k, root, u.heap, u.memory)
  {
  }

  /** Undoing the last applied part leads back to where it was applied. */
  lemma LastPartRestores(op: Op, k: nat, root: Agent, before: Outcome, o: Outcome, m2: Memory, u: Outcome)
    requires Grounded(op) && op.what.Compound? && k < |op.what.ops| && Reversible(NodesUpTo(op, k + 1))
    requires o == Apply(op.what.ops[k], root, before.heap, before.memory) && o.error.None?
    requires Agree(Counted(o.memory, op, k + 1), m2, NodesUpTo(op, k + 1))
    requires u == Undo(op.what.ops[k], root, o.heap, m2)
    ensures Reversible(NodesUpTo(op, k))
    ensures u.error.None? && u.heap == before.heap && Agree(before.memory, u.memory, NodesUpTo(op, k))
    decreases op.depth, 0, k, 0
  {
    hide Apply, Undo, Nodes;
    var part, ns := op.what.ops[k], NodesUpTo(op, k);
    assert NodesUpTo(op, k + 1) == ns + Nodes(part);
    ReversibleSplits(ns, Nodes(part));
    AgreeSplits(Counted(o.memory, op, k + 1), m2, ns, Nodes(part));
    OpNotBelow(op, k);
    OpNotBelow(op, k + 1);
    CountIsElsewhere(o.memory, op, k + 1, Nodes(part), m2);
    UndoRestores(part, root, before.heap, before.memory, m2);
    forall i | 0 <= i < |ns|
      ensures Get(before.memory, ns[i]) == Get(u.memory, ns[i])
    {
      assert ns[i] in ns && ns[i] != op;
      ApplyFrame(part, root, before.heap, before.memory, ns[i]);
      UndoFrame(part, root, o.heap, m2, ns[i]);
    }
  }

  lemma CountIsElsewhere(m: Memory, op: Op, count: nat, ns: seq<Op>, m2: Memory)
    requires Agree(Counted(m, op, count), m2, ns) && op !in ns
    ensures Agree(m, m2, ns)
  {
    forall i | 0 <= i < |ns|
      ensures Get(m, ns[i]) == Get(m2, ns[i])
    {
      assert ns[i] in ns;
      assert Get(Counted(m, op, count), ns[i]) == Get(m2, ns[i]);
    }
  }

  // ---- The exact condition ----------------------------------------------------------------------

  ghost predicate AllDisarmed(ns: seq<Op>, m: Memory) {
    forall i :: 0 <= i < |ns| ==> Disarmed(ns[i], Get(m, ns[i]))
  }

  ghost predicate AllEither(ns: seq<Op>, m: Memory) {
    forall i :: 0 <= i < |ns| ==> Armed(ns[i], Get(m, ns[i])) || Disarmed(ns[i], Get(m, ns[i]))
  }

  lemma EitherSplits(m: Memory, a: seq<Op>, b: seq<Op>)
    requires AllEither(a + b, m)
    ensures AllEither(a, m) && AllEither(b, m)
  {
    assert forall i :: 0 <= i < |a| ==> (a + b)[i] == a[i];
    forall i | 0 <= i < |b|
      ensures Armed(b[i], Get(m, b[i])) || Disarmed(b[i], Get(m, b[i]))
    {
      assert (a + b)[|a| + i] == b[i];
    }
  }

  /** An undo that succeeds has disarmed armed nodes only, each once. */
  lemma {:induction false} UndoTells(op: Op, root: Agent, h: Heap, m: Memory)
    requires Grounded(op) && AllEither(Nodes(op), m) && Undo(op, root, h, m).error.None?
    ensures Reversible(Nodes(op)) && AllArmed(Nodes(op), m) && AllDisarmed(Nodes(op), Undo(op, root, h, m).memory)
    decreases op.depth, 1, 0
  {
    if op.what.Compound? {
      var n := |op.what.ops|;
      assert Nodes(op) == [op] + NodesUpTo(op, n);
      EitherSplits(m, [op], NodesUpTo(op, n));
      assert Armed([op][0], Get(m, [op][0])) || Disarmed([op][0], Get(m, [op][0]));
      UndoDownTells(op, n, root, h, m);
      OpNotBelow(op, n);
      ReversibleJoins([op], NodesUpTo(op, n));
      DisarmedToo(UndoDown(op, n, root, h, m).memory, op, NodesUpTo(op, n));
    }
  }

  lemma DisarmedToo(m: Memory, op: Op, ns: seq<Op>)
    requires op.what.Compound? && op !in ns && AllDisarmed(ns, m)
    ensures AllDisarmed([op] + ns, Counted(m, op, 0))
  {
    forall i | 0 <= i < |ns|
      ensures Disarmed(ns[i], Get(Counted(m, op, 0), ns[i]))
    {
      assert ns[i] in ns;
    }
  }

  lemma {:induction false} UndoDownTells(op: Op, k: nat, root: Agent, h: Heap, m: Memory)
    requires Grounded(op) && op.what.Compound? && k <= |op.what.ops|
    requires AllEither(NodesUpTo(op, k), m) && UndoDown(op, k, root, h, m).error.None?
    ensures Reversible(NodesUpTo(op, k)) && AllArmed(NodesUpTo(op, k), m)
    ensures AllDisarmed(NodesUpTo(op, k), UndoDown(op, k, root, h, m).memory)
    decreases op.depth, 0, k
  {
    if k > 0 {
      var part, ns := op.what.ops[k - 1], NodesUpTo(op, k - 1);
      var u := Undo(part, root, h, m);
      EitherSplits(m, ns, Nodes(part));
      UndoTells(part, root, h, m);
      forall i | 0 <= i < |ns|
        ensures Armed(ns[i], Get(u.memory, ns[i])) || Disarmed(ns[i], Get(u.memory, ns[i]))
      {
        if ns[i] in Nodes(part) {
          DisarmedIn(Nodes(part), u.memory, ns[i]);
        } else {
          UndoFrame(part, root, h, m, ns[i]);
        }
      }
      UndoDownTells(op, k - 1, root, u.heap, u.memory);
      PartTells(op, k - 1, root, h, m);
    }
  }

  lemma DisarmedIn(ns: seq<Op>, m: Memory, x: Op)
    requires AllDisarmed(ns, m) && x in ns
    ensures Disarmed(x, Get(m, x))
  {
    var j :| 0 <= j < |ns| && ns[j] == x;
    assert Disarmed(ns[j], Get(m, ns[j]));
  }

  lemma PartTells(op: Op, k: nat, root: Agent, h: Heap, m: Memory)
    requires Grounded(op) && op.what.Compound? && k < |op.what.ops|
    requires var u := Undo(op.what.ops[k], root, h, m);
             AllDisarmed(Nodes(op.what.ops[k]), u.memory) && AllArmed(NodesUpTo(op, k), u.memory) &&
             AllDisarmed(NodesUpTo(op, k), UndoDown(op, k, root, u.heap, u.memory).memory)
    requires Reversible(Nodes(op.what.ops[k])) && AllArmed(Nodes(op.what.ops[k]), m) && Reversible(NodesUpTo(op, k))
    ensures Reversible(NodesUpTo(op, k + 1)) && AllArmed(NodesUpTo(op, k + 1), m)
    ensures var u := Undo(op.what.ops[k], root, h, m);
            AllDisarmed(NodesUpTo(op, k + 1), UndoDown(op, k, root, u.heap, u.memory).memory)
  {
    var part, ns := op.what.ops[k], NodesUpTo(op, k);
    var u := Undo(part, root, h, m);
    var ps := Nodes(part);
    forall i | 0 <= i < |ps|
      ensures ps[i] !in ns
      ensures Disarmed(ps[i], Get(UndoDown(op, k, root, u.heap, u.memory).memory, ps[i]))
    {
      forall j | 0 <= j < |ns|
        ensures ns[j] != ps[i]
      {
        assert Armed(ns[j], Get(u.memory, ns[j]));
        assert Disarmed(ps[i], Get(u.memory, ps[i]));
      }
      UndoDownFrame(op, k, root, u.heap, u.memory, ps[i]);
    }
    forall i | 0 <= i < |ns|
      ensures Armed(ns[i], Get(m, ns[i]))
    {
      assert ns[i] in ns;
      UndoFrame(part, root, h, m, ns[i]);
    }
    ReversibleJoins(ns, ps);
  }

  /** EXACTLY WHEN. After a successful apply, undo succeeds if and only if no op object occurs twice
      and no compound is empty; and then it restores every agent. */
  lemma UndoSucceedsIff(op: Op, root: Agent, h: Heap, m: Memory)
    requires Grounded(op) && Apply(op, root, h, m).error.None?
    ensures var o := Apply(op, root, h, m);
            var u := Undo(op, root, o.heap, o.memory);
            (u.error.None? <==> Reversible(Nodes(op))) && (u.error.None? ==> u.heap == h)
  {
    var o := Apply(op, root, h, m);
    ApplyArms(op, root, h, m);
    if Reversible(Nodes(op)) {
      UndoRestores(op, root, h, m, o.memory);
    } else if Undo(op, root, o.heap, o.memory).error.None? {
      UndoTells(op, root, o.heap, o.memory);
    }
  }
}
