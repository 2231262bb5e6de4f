/** Which trees `build()` accepts, and what it says of the others. */
module BuildAcceptance {
  import opened Options
  import opened Architectures
  import opened TracerPaths

  // ---- The condition on declarations ------------------------------------------------------------

  /** What the first call of a stage hands it: the declared output of the stage before. */
  function Handed(a: Agent, i: nat): Class
    requires a.Composite? && i < |a.children|
  {
    if i == 0 then a.input else a.children[i - 1].agent.output
  }

  /** Each stage admits what the one before declares, and the parent what the last declares. */
  ghost predicate StagesFit(h: Hierarchy, a: Agent)
    requires a.Composite? && |a.children| >= 1
  {
    && (forall i :: 0 <= i < |a.children| ==> h(Handed(a, i), a.children[i].agent.input))
    && h(a.children[|a.children| - 1].agent.output, a.output)
  }

  /** From the second pass on the first stage is handed what the last one declares. */
  ghost predicate PassesFit(h: Hierarchy, a: Agent, n: nat)
    requires a.Composite? && |a.children| >= 1
  {
    n >= 2 ==> h(a.children[|a.children| - 1].agent.output, a.children[0].agent.input)
  }

  /** Children from `from` on admit what their parent is given. */
  ghost predicate Shares(h: Hierarchy, a: Agent, from: nat, to: nat)
    requires a.Composite? && to <= |a.children|
  {
    forall i :: from <= i < to ==> h(a.input, a.children[i].agent.input)
  }

  /** Every declared type in the tree fits where it is used. A Router's output is compared with that of
      its first branch only. */
  ghost predicate Fits(h: Hierarchy, a: Agent)
    requires WellFormed(a)
    decreases a
  {
    a.Composite? ==>
      && (forall i :: 0 <= i < |a.children| ==> Fits(h, a.children[i].agent))
      && match a.kind
         case Sequence => StagesFit(h, a)
         case LoopOf(n) => StagesFit(h, a) && PassesFit(h, a, n)
         case Fan(combined) => Shares(h, a, 0, |a.children|) && h(combined, a.output)
         case Route(adapted) =>
           && Shares(h, a, 0, if adapted then 1 else |a.children|)
           && h(a.children[1].agent.output, a.output)
  }

  // ---- Acceptance ----------------------------------------------------------------------------------

  lemma {:induction false} RecordAcceptsIff(h: Hierarchy, a: Agent, x: Class)
    requires Preorder(h) && WellFormed(a)
    ensures Record(h, a, x).Traced? <==> h(x, a.input) && Fits(h, a)
    ensures Record(h, a, x).Traced? ==> Record(h, a, x).out == a.output
    decreases a, 1
  {
    if a.Composite? && h(x, a.input) {
      ForwardAcceptsIff(h, a);
    }
  }

  /** What `forward` must return under the trace. */
  ghost predicate ReturnsFit(h: Hierarchy, a: Agent) {
    a.Composite? && ForwardTrace(h, a).Traced? && h(ForwardTrace(h, a).out, a.output)
  }

  lemma {:induction false} ForwardAcceptsIff(h: Hierarchy, a: Agent)
    requires Preorder(h) && WellFormed(a) && a.Composite?
    ensures ReturnsFit(h, a) <==> Fits(h, a)
    decreases a, 0
  {
    hide Record;
    forall i, x | 0 <= i < |a.children|
      ensures Accepts(h, a, i, x)
    {
      RecordAcceptsIff(h, a.children[i].agent, x);
    }
    match a.kind {
      case Sequence => StagesAcceptIff(h, a, 0, a.input);
      case LoopOf(n) => LoopAcceptsIff(h, a, n, a.input);
      case Fan(combined) => AllAcceptIff(h, a, 0, combined);
      case Route(_) => AllAcceptIff(h, a, 0, a.children[1].agent.output);
    }
  }

  /** The theorem for child `i`. */
  ghost predicate Accepts(h: Hierarchy, a: Agent, i: nat, x: Class)
    requires WellFormed(a) && a.Composite? && i < |a.children|
  {
    var r, b := Record(h, a.children[i].agent, x), a.children[i].agent;
    (r.Traced? <==> h(x, b.input) && Fits(h, b)) && (r.Traced? ==> r.out == b.output)
  }

  ghost predicate AllAccept(h: Hierarchy, a: Agent)
    requires WellFormed(a) && a.Composite?
  {
    forall i, x :: 0 <= i < |a.children| ==> Accepts(h, a, i, x)
  }

  /** Stage `i` is handed `x` and every later one what the stage before declares. */
  ghost predicate ChainFits(h: Hierarchy, a: Agent, i: nat, x: Class)
    requires WellFormed(a) && a.Composite?
  {
    forall j :: i <= j < |a.children| ==>
      h(if j == i then x else Handed(a, j), a.children[j].agent.input) && Fits(h, a.children[j].agent)
  }

  lemma ChainSplits(h: Hierarchy, a: Agent, i: nat, x: Class)
    requires WellFormed(a) && a.Composite? && i < |a.children|
    ensures ChainFits(h, a, i, x) <==>
            h(x, a.children[i].agent.input) && Fits(h, a.children[i].agent) &&
            ChainFits(h, a, i + 1, a.children[i].agent.output)
  {
    hide Fits;
    var out := a.children[i].agent.output;
    if ChainFits(h, a, i, x) {
      forall j | i + 1 <= j < |a.children|
        ensures h(if j == i + 1 then out else Handed(a, j), a.children[j].agent.input)
        ensures Fits(h, a.children[j].agent)
      {
        assert h(Handed(a, j), a.children[j].agent.input);
      }
    }
  }

  lemma {:induction false} StagesAcceptIff(h: Hierarchy, a: Agent, i: nat, x: Class)
    requires WellFormed(a) && a.Composite? && i <= |a.children| && AllAccept(h, a)
    ensures StagesTrace(h, a, i, x).Traced? <==> ChainFits(h, a, i, x)
    ensures StagesTrace(h, a, i, x).Traced? ==>
      StagesTrace(h, a, i, x).out == if i < |a.children| then a.children[|a.children| - 1].agent.output else x
    decreases |a.children| - i
  {
    if i < |a.children| {
      hide Record, Fits, ChainFits;
      assert Accepts(h, a, i, x);
      StagesAcceptIff(h, a, i + 1, a.children[i].agent.output);
      ChainSplits(h, a, i, x);
    }
  }

  lemma {:induction false} LoopAcceptsIff(h: Hierarchy, a: Agent, n: nat, x: Class)
    requires WellFormed(a) && a.Composite? && AllAccept(h, a) && n >= 1
    ensures LoopTrace(h, a, n, x).Traced? <==> ChainFits(h, a, 0, x) && PassesFit(h, a, n)
    ensures LoopTrace(h, a, n, x).Traced? ==> LoopTrace(h, a, n, x).out == a.children[|a.children| - 1].agent.output
    decreases n
  {
    hide StagesTrace, Fits, Accepts;
    var last := a.children[|a.children| - 1].agent.output;
    StagesAcceptIff(h, a, 0, x);
    if n >= 2 && ChainFits(h, a, 0, x) {
      LoopAcceptsIff(h, a, n - 1, last);
      OtherStart(h, a, x, last);
    }
  }

  /** Only the first stage sees what a pass starts from. */
  lemma OtherStart(h: Hierarchy, a: Agent, x: Class, y: Class)
    requires WellFormed(a) && a.Composite? && ChainFits(h, a, 0, x)
    ensures ChainFits(h, a, 0, y) <==> h(y, a.children[0].agent.input)
  {
    forall j | 0 < j < |a.children|
      ensures h(Handed(a, j), a.children[j].agent.input) && Fits(h, a.children[j].agent)
    {
    }
    assert Fits(h, a.children[0].agent);
  }

  lemma {:induction false} AllAcceptIff(h: Hierarchy, a: Agent, i: nat, out: Class)
    requires WellFormed(a) && a.Composite? && i <= |a.children| && AllAccept(h, a)
    ensures AllTrace(h, a, i, out).Traced? <==>
            forall j :: i <= j < |a.children| ==>
              h(TracePayload(a, j), a.children[j].agent.input) && Fits(h, a.children[j].agent)
    ensures AllTrace(h, a, i, out).Traced? ==> AllTrace(h, a, i, out).out == out
    decreases |a.children| - i
  {
    hide Record, Fits, TracePayload;
    if i < |a.children| {
      assert Accepts(h, a, i, TracePayload(a, i));
      AllAcceptIff(h, a, i + 1, out);
    }
  }

  /** WHAT `build()` ACCEPTS: exactly the trees whose declared types fit wherever they are used. */
  lemma BuildAcceptsIff(h: Hierarchy, root: Agent)
    requires Preorder(h) && WellFormed(root)
    ensures Build(h, root).Traced? <==> Fits(h, root)
    ensures Build(h, root).Traced? ==> Build(h, root).out == root.output
  {
    if root.Composite? {
      ForwardAcceptsIff(h, root);
    }
  }

  // ---- What is reported ----------------------------------------------------------------------------

  /** One `isinstance` check of the trace, and what it raises. */
  datatype Check = Check(got: Class, wanted: Class, error: Error)

  /** The checks of one intercepted call, in the order of the trace. */
  function CallChecks(a: Agent, x: Class): seq<Check>
    decreases a, 2
  {
    [Check(x, a.input, InputMismatch)] + if a.Composite? then Inside(a) else []
  }

  /** The calls that `forward` makes, then its result. */
  function Inside(a: Agent): seq<Check>
    requires a.Composite?
    decreases a, 1
  {
    var js := Turns(a);
    (if a.kind.Fan? || a.kind.Route? then SharedCalls(a, js) else ChainedCalls(a, js, a.input))
    + [Check(Returned(a), a.output, OutputMismatch)]
  }

  /** Each call is handed what the one before returned. */
  function ChainedCalls(a: Agent, js: seq<nat>, x: Class): seq<Check>
    requires ChildIndices(a, js)
    decreases a, 0, |js|
  {
    if |js| == 0 then []
    else CallChecks(a.children[js[0]].agent, x) + ChainedCalls(a, js[1..], a.children[js[0]].agent.output)
  }

  /** Each call is handed the input; a branch of a Router with `branch_input`, an instance of its own. */
  function SharedCalls(a: Agent, js: seq<nat>): seq<Check>
    requires ChildIndices(a, js)
    decreases a, 0, |js|
  {
    if |js| == 0 then []
    else
      var b := a.children[js[0]].agent;
      var adapted := a.kind.Route? && a.kind.adapted && js[0] > 0;
      CallChecks(b, if adapted then b.input else a.input) + SharedCalls(a, js[1..])
  }

  /** The class that `forward` returns an instance of. */
  function Returned(a: Agent): Class
    requires a.Composite?
  {
    match a.kind
    case Fan(combined) => combined
    case Route(_) => if |a.children| >= 2 then a.children[1].agent.output else a.input
    case _ => if |a.children| >= 1 then a.children[|a.children| - 1].agent.output else a.input
  }

  /** The first check that fails. */
  function FaultOf(h: Hierarchy, cs: seq<Check>): Option<Error> {
    if |cs| == 0 then None
    else if !h(cs[0].got, cs[0].wanted) then Some(cs[0].error)
    else FaultOf(h, cs[1..])
  }

  function Says(out: Class, fault: Option<Error>): Trace {
    if fault.Some? then Failed(fault.value) else Traced(out)
  }

  lemma {:induction false} FaultJoins(h: Hierarchy, a: seq<Check>, b: seq<Check>)
    ensures FaultOf(h, a + b) == if FaultOf(h, a).Some? then FaultOf(h, a) else FaultOf(h, b)
  {
    if |a| == 0 {
      assert a + b == b;
    } else {
      assert (a + b)[1..] == a[1..] + b;
      FaultJoins(h, a[1..], b);
    }
  }

  lemma {:induction false} RecordSays(h: Hierarchy, a: Agent, x: Class)
    requires WellFormed(a)
    ensures Record(h, a, x) == Says(a.output, FaultOf(h, CallChecks(a, x)))
    decreases a, 2
  {
    var first := [Check(x, a.input, InputMismatch)];
    assert FaultOf(h, first) == if h(x, a.input) then None else Some(InputMismatch) by {
      assert first[1..] == [];
    }
    if a.Composite? {
      FaultJoins(h, first, Inside(a));
      InsideSays(h, a);
    } else {
      assert CallChecks(a, x) == first;
    }
  }

  /** The trace of a composite on its own input. */
  function Whole(h: Hierarchy, a: Agent): Trace
    requires a.Composite?
  {
    match ForwardTrace(h, a)
    case Failed(e) => Failed(e)
    case Traced(out) => if h(out, a.output) then Traced(a.output) else Failed(OutputMismatch)
  }

  lemma {:induction false} InsideSays(h: Hierarchy, a: Agent)
    requires WellFormed(a) && a.Composite?
    ensures Whole(h, a) == Says(a.output, FaultOf(h, Inside(a)))
    decreases a, 1
  {
    hide Record, CallChecks;
    forall i, x | 0 <= i < |a.children|
      ensures SaysOf(h, a, i, x)
    {
      RecordSays(h, a.children[i].agent, x);
    }
    var js, last := Turns(a), [Check(Returned(a), a.output, OutputMismatch)];
    assert last[1..] == [];
    if a.kind.Fan? || a.kind.Route? {
      FaultJoins(h, SharedCalls(a, js), last);
      assert js[0..] == js;
      SharedSays(h, a, 0, Returned(a));
    } else {
      FaultJoins(h, ChainedCalls(a, js, a.input), last);
      if a.kind.Sequence? {
        assert js[0..] == js && js + [] == js;
        StagesSay(h, a, 0, a.input, []);
      } else {
        PassesSay(h, a, a.kind.n, a.input);
      }
    }
  }

  ghost predicate SaysOf(h: Hierarchy, a: Agent, i: nat, x: Class)
    requires a.Composite? && i < |a.children|
  {
    var b := a.children[i].agent;
    Record(h, b, x) == Says(b.output, FaultOf(h, CallChecks(b, x)))
  }

  ghost predicate AllSay(h: Hierarchy, a: Agent)
    requires a.Composite?
  {
    forall i, x :: 0 <= i < |a.children| ==> SaysOf(h, a, i, x)
  }

  lemma {:induction false} SharedSays(h: Hierarchy, a: Agent, i: nat, out: Class)
    requires WellFormed(a) && a.Composite? && i <= |a.children| && AllSay(h, a)
    ensures AllTrace(h, a, i, out) == Says(out, FaultOf(h, SharedCalls(a, UpTo(|a.children|)[i..])))
    decreases |a.children| - i
  {
    hide Record, CallChecks, FaultOf;
    var js := UpTo(|a.children|)[i..];
    if i == |a.children| {
      NoFault(h);
    } else {
      assert js[0] == i && js[1..] == UpTo(|a.children|)[i + 1..];
      assert SaysOf(h, a, i, TracePayload(a, i));
      SharedSays(h, a, i + 1, out);
      FaultJoins(h, CallChecks(a.children[i].agent, TracePayload(a, i)), SharedCalls(a, js[1..]));
    }
  }

  lemma NoFault(h: Hierarchy)
    ensures FaultOf(h, []) == None
  {
  }

  /** A pass from stage `i` on, and the calls `rest` after it. */
  lemma {:induction false} StagesSay(h: Hierarchy, a: Agent, i: nat, x: Class, rest: seq<nat>)
    requires WellFormed(a) && a.Composite? && i <= |a.children| && AllSay(h, a) && ChildIndices(a, rest)
    ensures ChildIndices(a, UpTo(|a.children|)[i..] + rest)
    ensures var out := if i < |a.children| then a.children[|a.children| - 1].agent.output else x;
      var o := StagesTrace(h, a, i, x);
      var f := FaultOf(h, ChainedCalls(a, UpTo(|a.children|)[i..] + rest, x));
      (o.Failed? ==> f == Some(o.error)) &&
      (o.Traced? ==> o.out == out && f == FaultOf(h, ChainedCalls(a, rest, out)))
    decreases |a.children| - i
  {
    hide Record, CallChecks, FaultOf;
    var js := UpTo(|a.children|)[i..] + rest;
    if i == |a.children| {
      assert js == rest;
    } else {
      assert js[0] == i && js[1..] == UpTo(|a.children|)[i + 1..] + rest;
      assert SaysOf(h, a, i, x);
      var b := a.children[i].agent;
      StagesSay(h, a, i + 1, b.output, rest);
      FaultJoins(h, CallChecks(b, x), ChainedCalls(a, js[1..], b.output));
    }
  }

  lemma {:induction false} PassesSay(h: Hierarchy, a: Agent, n: nat, x: Class)
    requires WellFormed(a) && a.Composite? && AllSay(h, a)
    ensures ChildIndices(a, Rounds(|a.children|, n))
    ensures LoopTrace(h, a, n, x) ==
            Says(if n > 0 then a.children[|a.children| - 1].agent.output else x,
                 FaultOf(h, ChainedCalls(a, Rounds(|a.children|, n), x)))
    decreases n
  {
    hide Record, CallChecks, FaultOf;
    RoundsBounded(|a.children|, n);
    if n == 0 {
      NoFault(h);
    } else {
      var rest := Rounds(|a.children|, n - 1);
      PassesSay(h, a, n - 1, a.children[|a.children| - 1].agent.output);
      StagesSay(h, a, 0, x, rest);
      assert UpTo(|a.children|)[0..] == UpTo(|a.children|);
    }
  }

  /** WHAT IS REPORTED: of all checks of the trace in order, `build()` reports the first that fails. */
  lemma BuildReportsFirst(h: Hierarchy, root: Agent)
    requires WellFormed(root)
    ensures Build(h, root) == Says(root.output, FaultOf(h, if root.Composite? then Inside(root) else []))
  {
    if root.Composite? {
      InsideSays(h, root);
    }
  }
}
