/** What a successful `build()` guarantees about every later run. */
module BuildSoundness {
  import opened Options
  import opened Architectures

  // ---- What a router may pass on ---------------------------------------------

  /** The classes of which an invocation of `a` returns instances: the declared output of the
      leaf, or the result class of the `combine`, that produces its value. */
  ghost function Yields(a: Agent): set<Class>
    decreases a, 1
  {
    if a.Leaf? then {a.output}
    else if |a.children| == 0 then {}
    else
      match a.kind
      case Sequence => Yields(a.children[|a.children| - 1].agent)
      case LoopOf(_) => Yields(a.children[|a.children| - 1].agent)
      case Fan(combined) => {combined}
      case Route(_) => BranchYields(a, 1)
  }

  ghost function BranchYields(a: Agent, i: nat): set<Class>
    requires a.Composite? && 1 <= |a.children|
    decreases a, 0, |a.children| - i
  {
    if i >= |a.children| then {} else Yields(a.children[i].agent) + BranchYields(a, i + 1)
  }

  /** Every router in the tree accepts whatever its branches return. */
  ghost predicate Delivers(h: Hierarchy, a: Agent) {
    a.Composite? ==>
      && (forall i :: 0 <= i < |a.children| ==> Delivers(h, a.children[i].agent))
      && (a.kind.Route? ==> forall y :: y in Yields(a) ==> h(y, a.output))
  }

  /** The declaration-level condition: every branch output conforms to its router's output. */
  ghost predicate BranchesConform(h: Hierarchy, a: Agent) {
    a.Composite? ==>
      && (forall i :: 0 <= i < |a.children| ==> BranchesConform(h, a.children[i].agent))
      && (a.kind.Route? ==> forall i :: 1 <= i < |a.children| ==> h(a.children[i].agent.output, a.output))
  }

  ghost predicate Under(h: Hierarchy, c: Class, a: Agent) {
    exists y :: y in Yields(a) && h(c, y)
  }

  ghost predicate Sound(h: Hierarchy, r: Run, a: Agent) {
    && NoMismatch(r.raised)
    && (r.outcome.Ok? ==> h(r.outcome.value.cls, a.output) && Under(h, r.outcome.value.cls, a))
    && (r.outcome.Err? ==> r.outcome.error in r.raised)
  }

  // ---- Soundness ------------------------------------------------------------

  lemma {:induction false} BranchYieldsHas(a: Agent, i: nat, j: nat)
    requires a.Composite? && 1 <= i <= j < |a.children|
    ensures Yields(a.children[j].agent) <= BranchYields(a, i)
    decreases j - i
  {
    if i < j {
      BranchYieldsHas(a, i + 1, j);
    }
  }

  lemma {:induction false} BranchYieldsFrom(a: Agent, i: nat, y: Class) returns (j: nat)
    requires a.Composite? && 1 <= i && 1 <= |a.children| && y in BranchYields(a, i)
    ensures i <= j < |a.children| && y in Yields(a.children[j].agent)
    decreases |a.children| - i
  {
    if y in Yields(a.children[i].agent) {
      j := i;
    } else {
      j := BranchYieldsFrom(a, i + 1, y);
    }
  }

  /** Each child's record is part of the record of the whole. */
  lemma {:induction false} AllTraceChild(h: Hierarchy, a: Agent, i: nat, out: Class, j: nat)
    requires a.Composite? && i <= j < |a.children|
    requires AllTrace(h, a, i, out).Traced?
    ensures Record(h, a.children[j].agent, TracePayload(a, j)).Traced?
    ensures AllTrace(h, a, i, out).out == out
    decreases |a.children| - i
  {
    if i < j {
      AllTraceChild(h, a, i + 1, out, j);
    } else {
      AllTraceOut(h, a, i, out);
    }
  }

  lemma {:induction false} AllTraceOut(h: Hierarchy, a: Agent, i: nat, out: Class)
    requires a.Composite? && i <= |a.children|
    requires AllTrace(h, a, i, out).Traced?
    ensures AllTrace(h, a, i, out).out == out
    decreases |a.children| - i
  {
    if i < |a.children| {
      AllTraceOut(h, a, i + 1, out);
    }
  }

  lemma {:induction false} InvokeSound(h: Hierarchy, o: Oracle, k: nat, a: Agent, path: string, x: Value, tx: Class)
    requires Preorder(h) && Respects(h, o) && WellFormed(a) && Delivers(h, a)
    requires Record(h, a, tx).Traced? && h(x.cls, tx)
    ensures Sound(h, Invoke(h, o, k, a, path, x), a)
    decreases a, 4
  {
    if a.Composite? {
      ForwardSound(h, o, k, a, path, x);
    }
  }

  lemma {:induction false} ForwardSound(h: Hierarchy, o: Oracle, k: nat, a: Agent, path: string, x: Value)
    requires Preorder(h) && Respects(h, o) && a.Composite? && WellFormed(a) && Delivers(h, a)
    requires ForwardTrace(h, a).Traced? && h(ForwardTrace(h, a).out, a.output) && h(x.cls, a.input)
    ensures Sound(h, Forward(h, o, k, a, path, x), a)
    decreases a, 3
  {
    match a.kind {
      case Sequence => StagesSound(h, o, k, a, path, 0, x, a.input);
      case LoopOf(n) => PassesSound(h, o, k, a, path, n, x, a.input);
      case Fan(combined) =>
        AllTraceOut(h, a, 0, combined);
        GatherSound(h, o, k, a, path, 0, x, [], combined);
      case Route(_) => RouteSound(h, o, k, a, path, x);
    }
  }

  lemma {:induction false} RouteSound(h: Hierarchy, o: Oracle, k: nat, a: Agent, path: string, x: Value)
    requires Preorder(h) && Respects(h, o) && a.Composite? && a.kind.Route? && WellFormed(a) && Delivers(h, a)
    requires ForwardTrace(h, a).Traced? && h(x.cls, a.input)
    ensures Sound(h, Forward(h, o, k, a, path, x), a)
    decreases a, 2
  {
    var out := a.children[1].agent.output;
    AllTraceChild(h, a, 0, out, 0);
    InvokeSound(h, o, k, a.children[0].agent, PathOf(a, path, 0), x, a.input);
    var r := Invoke(h, o, k, a.children[0].agent, PathOf(a, path, 0), x);
    if r.outcome.Ok? {
      var i := Branch(a.children, r.outcome.value.key, 1);
      if i < |a.children| {
        var payload := if a.kind.adapted then o.adapt(r.clock, a, x, r.outcome.value, i) else x;
        AllTraceChild(h, a, 0, out, i);
        InvokeSound(h, o, r.clock, a.children[i].agent, PathOf(a, path, i), payload, TracePayload(a, i));
        BranchYieldsHas(a, 1, i);
        assert Yields(a.children[i].agent) <= Yields(a);
      }
    }
  }

  lemma {:induction false} StagesSound(h: Hierarchy, o: Oracle, k: nat, a: Agent, path: string, i: nat, x: Value,
                                       tx: Class)
    requires Preorder(h) && Respects(h, o) && a.Composite? && WellFormed(a) && Delivers(h, a) && i <= |a.children|
    requires StagesTrace(h, a, i, tx).Traced? && h(x.cls, tx)
    ensures var r := Stages(h, o, k, a, path, i, x);
      && NoMismatch(r.raised)
      && (r.outcome.Ok? ==> h(r.outcome.value.cls, StagesTrace(h, a, i, tx).out))
      && (r.outcome.Ok? && i < |a.children| ==> Under(h, r.outcome.value.cls, a.children[|a.children| - 1].agent))
      && (r.outcome.Err? ==> r.outcome.error in r.raised)
    decreases a, 1, |a.children| - i
  {
    if i < |a.children| {
      InvokeSound(h, o, k, a.children[i].agent, PathOf(a, path, i), x, tx);
      var r := Invoke(h, o, k, a.children[i].agent, PathOf(a, path, i), x);
      if r.outcome.Ok? {
        StagesSound(h, o, r.clock, a, path, i + 1, r.outcome.value, a.children[i].agent.output);
      }
    }
  }

  lemma {:induction false} PassesSound(h: Hierarchy, o: Oracle, k: nat, a: Agent, path: string, n: nat, x: Value,
                                       tx: Class)
    requires Preorder(h) && Respects(h, o) && a.Composite? && WellFormed(a) && Delivers(h, a)
    requires LoopTrace(h, a, n, tx).Traced? && h(x.cls, tx)
    ensures var r := Passes(h, o, k, a, path, n, x);
      && NoMismatch(r.raised)
      && (r.outcome.Ok? ==> h(r.outcome.value.cls, LoopTrace(h, a, n, tx).out))
      && (r.outcome.Ok? && n >= 1 ==> Under(h, r.outcome.value.cls, a.children[|a.children| - 1].agent))
      && (r.outcome.Err? ==> r.outcome.error in r.raised)
    decreases a, 2, n
  {
    if n > 0 {
      StagesSound(h, o, k, a, path, 0, x, tx);
      var r := Stages(h, o, k, a, path, 0, x);
      if r.outcome.Ok? {
        PassesSound(h, o, r.clock, a, path, n - 1, r.outcome.value, StagesTrace(h, a, 0, tx).out);
      }
    }
  }

  lemma {:induction false} GatherSound(h: Hierarchy, o: Oracle, k: nat, a: Agent, path: string, i: nat, x: Value,
                                       values: seq<Value>, out: Class)
    requires Preorder(h) && Respects(h, o) && a.Composite? && a.kind.Fan? && WellFormed(a) && Delivers(h, a)
    requires i <= |a.children| && AllTrace(h, a, i, out).Traced? && h(x.cls, a.input)
    ensures var g := Gather(h, o, k, a, path, i, x, values);
      && NoMismatch(g.raised)
      && (g.error.Some? ==> g.error.value in g.raised)
    decreases a, 1, |a.children| - i
  {
    if i < |a.children| {
      InvokeSound(h, o, k, a.children[i].agent, PathOf(a, path, i), x, a.input);
      var r := Invoke(h, o, k, a.children[i].agent, PathOf(a, path, i), x);
      GatherSound(h, o, r.clock, a, path, i + 1, x,
                  if r.outcome.Ok? then values + [r.outcome.value] else values, out);
    }
  }

  /** BUILD SOUNDNESS. If `build()` accepts the root and every router accepts what its branches
      return, then no invocation anywhere in any run on a well-typed input raises an input or
      output mismatch; what it returns is an instance of the declared output. */
  lemma BuildIsSound(h: Hierarchy, o: Oracle, root: Agent, name: string, x: Value)
    requires Preorder(h) && Respects(h, o) && WellFormed(root)
    requires Build(h, root).Traced? && Delivers(h, root) && h(x.cls, root.input)
    ensures Sound(h, Invoke(h, o, 0, root, name, x), root)
  {
    InvokeSound(h, o, 0, root, name, x, root.input);
  }

  /** Declared conformity of all branches is enough. */
  lemma {:induction false} ConformDelivers(h: Hierarchy, a: Agent, tx: Class)
    requires Preorder(h) && WellFormed(a) && BranchesConform(h, a) && Record(h, a, tx).Traced?
    ensures Delivers(h, a)
    ensures forall y :: y in Yields(a) ==> h(y, a.output)
    decreases a
  {
    if a.Composite? {
      forall i | 0 <= i < |a.children|
        ensures Delivers(h, a.children[i].agent)
        ensures forall y :: y in Yields(a.children[i].agent) ==> h(y, a.children[i].agent.output)
      {
        var ti := ChildTraced(h, a, i);
        ConformDelivers(h, a.children[i].agent, ti);
      }
      match a.kind {
        case Sequence => StagesOut(h, a, 0, a.input);
        case LoopOf(n) => LoopOut(h, a, n, a.input);
        case Fan(combined) => AllTraceOut(h, a, 0, combined);
        case Route(_) =>
          forall y | y in Yields(a)
            ensures h(y, a.output)
          {
            var j := BranchYieldsFrom(a, 1, y);
          }
      }
    }
  }

  lemma {:induction false} StagesOut(h: Hierarchy, a: Agent, i: nat, x: Class)
    requires a.Composite? && i <= |a.children| && StagesTrace(h, a, i, x).Traced?
    ensures StagesTrace(h, a, i, x).out
         == if i < |a.children| then a.children[|a.children| - 1].agent.output else x
    decreases |a.children| - i
  {
    if i < |a.children| {
      StagesOut(h, a, i + 1, a.children[i].agent.output);
    }
  }

  lemma {:induction false} LoopOut(h: Hierarchy, a: Agent, n: nat, x: Class)
    requires a.Composite? && |a.children| > 0 && LoopTrace(h, a, n, x).Traced?
    ensures LoopTrace(h, a, n, x).out
         == if n > 0 then a.children[|a.children| - 1].agent.output else x
    decreases n
  {
    if n > 0 {
      StagesOut(h, a, 0, x);
      LoopOut(h, a, n - 1, StagesTrace(h, a, 0, x).out);
    }
  }

  /** A successful trace of a composite contains a successful record of each of its children. */
  lemma ChildTraced(h: Hierarchy, a: Agent, i: nat) returns (tx: Class)
    requires a.Composite? && WellFormed(a) && i < |a.children| && ForwardTrace(h, a).Traced?
    ensures Record(h, a.children[i].agent, tx).Traced?
  {
    match a.kind {
      case Sequence => tx := StageTraced(h, a, 0, a.input, i);
      case LoopOf(n) => tx := StageTraced(h, a, 0, a.input, i);
      case Fan(combined) =>
        AllTraceChild(h, a, 0, combined, i);
        tx := TracePayload(a, i);
      case Route(_) =>
        AllTraceChild(h, a, 0, a.children[1].agent.output, i);
        tx := TracePayload(a, i);
    }
  }

  lemma {:induction false} StageTraced(h: Hierarchy, a: Agent, i: nat, x: Class, j: nat) returns (tx: Class)
    requires a.Composite? && i <= j < |a.children| && StagesTrace(h, a, i, x).Traced?
    ensures Record(h, a.children[j].agent, tx).Traced?
    ensures tx == if j == i then x else a.children[j - 1].agent.output
    decreases j - i
  {
    if i == j {
      tx := x;
    } else {
      tx := StageTraced(h, a, i + 1, a.children[i].agent.output, j);
    }
  }

  /** The same guarantee from the declaration-level condition. */
  lemma BuildIsSoundWhenBranchesConform(h: Hierarchy, o: Oracle, root: Agent, name: string, x: Value)
    requires Preorder(h) && Respects(h, o) && WellFormed(root)
    requires Build(h, root).Traced? && BranchesConform(h, root) && h(x.cls, root.input)
    ensures NoMismatch(Invoke(h, o, 0, root, name, x).raised)
    ensures Invoke(h, o, 0, root, name, x).outcome != Err(InputMismatch)
    ensures Invoke(h, o, 0, root, name, x).outcome != Err(OutputMismatch)
  {
    ConformDelivers(h, root, root.input);
    BuildIsSound(h, o, root, name, x);
  }
}
