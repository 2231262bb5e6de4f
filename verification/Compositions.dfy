/** What a run of each composite returns: who is handed what, and in which order. */
module Compositions {
  import opened Options
  import opened Architectures
  import opened TracerPaths

  /** The value that child `i` of `a` returns when it is invoked with `x` at this point of the run. */
  ghost predicate Returns(h: Hierarchy, o: Oracle, k: nat, a: Agent, path: string, i: nat, x: Value, y: Value, k': nat)
    requires a.Composite? && i < |a.children|
  {
    var r := Invoke(h, o, k, a.children[i].agent, PathOf(a, path, i), x);
    r.outcome == Ok(y) && r.clock == k'
  }

  // ---- One after the other -----------------------------------------------------------------------

  /** The children `js` are invoked in this order, each with what the one before returned. */
  ghost predicate Chained(h: Hierarchy, o: Oracle, a: Agent, path: string, js: seq<nat>, xs: seq<Value>, ks: seq<nat>) {
    && ChildIndices(a, js) && |xs| == |ks| == |js| + 1
    && forall i :: 0 <= i < |js| ==> LinkAt(h, o, a, path, js, xs, ks, i)
  }

  ghost predicate LinkAt(h: Hierarchy, o: Oracle, a: Agent, path: string, js: seq<nat>, xs: seq<Value>, ks: seq<nat>,
                         i: nat)
    requires ChildIndices(a, js) && |xs| == |ks| == |js| + 1 && i < |js|
  {
    Returns(h, o, ks[i], a, path, js[i], xs[i], xs[i + 1], ks[i + 1])
  }

  lemma ChainStarts(h: Hierarchy, o: Oracle, a: Agent, path: string, j: nat, js: seq<nat>, xs: seq<Value>, ks: seq<nat>,
                    k: nat, x: Value)
    requires Chained(h, o, a, path, js, xs, ks) && j < |a.children|
    requires Returns(h, o, k, a, path, j, x, xs[0], ks[0])
    ensures Chained(h, o, a, path, [j] + js, [x] + xs, [k] + ks)
  {
    hide Returns;
    forall i | 0 <= i < |js| + 1
      ensures LinkAt(h, o, a, path, [j] + js, [x] + xs, [k] + ks, i)
    {
      if i > 0 {
        assert LinkAt(h, o, a, path, js, xs, ks, i - 1);
      }
    }
  }

  lemma ChainJoins(h: Hierarchy, o: Oracle, a: Agent, path: string, js: seq<nat>, xs: seq<Value>, ks: seq<nat>,
                   js': seq<nat>, xs': seq<Value>, ks': seq<nat>)
    requires Chained(h, o, a, path, js, xs, ks) && Chained(h, o, a, path, js', xs', ks')
    requires xs[|js|] == xs'[0] && ks[|js|] == ks'[0]
    ensures Chained(h, o, a, path, js + js', xs + xs'[1..], ks + ks'[1..])
  {
    hide Returns;
    var all, ys, ls := js + js', xs + xs'[1..], ks + ks'[1..];
    forall i | 0 <= i < |all|
      ensures LinkAt(h, o, a, path, all, ys, ls, i)
    {
      if i < |js| {
        assert LinkAt(h, o, a, path, js, xs, ks, i);
      } else {
        assert LinkAt(h, o, a, path, js', xs', ks', i - |js|);
        assert ys[i] == xs'[i - |js|] && ls[i] == ks'[i - |js|];
      }
    }
  }

  lemma {:induction false} StagesChain(h: Hierarchy, o: Oracle, k: nat, a: Agent, path: string, i: nat, x: Value)
    returns (xs: seq<Value>, ks: seq<nat>)
    requires a.Composite? && i <= |a.children| && Stages(h, o, k, a, path, i, x).outcome.Ok?
    ensures Chained(h, o, a, path, UpTo(|a.children|)[i..], xs, ks) && xs[0] == x && ks[0] == k
    ensures var r := Stages(h, o, k, a, path, i, x); r.outcome == Ok(xs[|xs| - 1]) && r.clock == ks[|ks| - 1]
    decreases |a.children| - i
  {
    hide Invoke;
    var js := UpTo(|a.children|)[i..];
    if i == |a.children| {
      xs, ks := [x], [k];
    } else {
      var r := Invoke(h, o, k, a.children[i].agent, PathOf(a, path, i), x);
      var ys, ls := StagesChain(h, o, r.clock, a, path, i + 1, r.outcome.value);
      assert js == [i] + UpTo(|a.children|)[i + 1..];
      ChainStarts(h, o, a, path, i, js[1..], ys, ls, k, x);
      xs, ks := [x] + ys, [k] + ls;
    }
  }

  lemma {:induction false} PassesChain(h: Hierarchy, o: Oracle, k: nat, a: Agent, path: string, n: nat, x: Value)
    returns (xs: seq<Value>, ks: seq<nat>)
    requires a.Composite? && Passes(h, o, k, a, path, n, x).outcome.Ok?
    ensures Chained(h, o, a, path, Rounds(|a.children|, n), xs, ks) && xs[0] == x && ks[0] == k
    ensures var r := Passes(h, o, k, a, path, n, x); r.outcome == Ok(xs[|xs| - 1]) && r.clock == ks[|ks| - 1]
    decreases n
  {
    hide Invoke, Stages;
    RoundsBounded(|a.children|, n);
    if n == 0 {
      xs, ks := [x], [k];
    } else {
      var r := Stages(h, o, k, a, path, 0, x);
      var ys, ls := StagesChain(h, o, k, a, path, 0, x);
      var ys', ls' := PassesChain(h, o, r.clock, a, path, n - 1, r.outcome.value);
      assert UpTo(|a.children|)[0..] == UpTo(|a.children|);
      ChainJoins(h, o, a, path, UpTo(|a.children|), ys, ls, Rounds(|a.children|, n - 1), ys', ls');
      xs, ks := ys + ys'[1..], ls + ls'[1..];
    }
  }

  /** The stages in order, as often as the loop has it. */
  ghost predicate Linear(a: Agent) {
    a.Composite? && (a.kind.Sequence? || a.kind.LoopOf?)
  }

  /** SEQUENTIAL AND LOOP: what is returned came through every stage in order, pass after pass, each
      handed what the one before returned, the first the input. */
  lemma LinearReturns(h: Hierarchy, o: Oracle, k: nat, a: Agent, path: string, x: Value)
    returns (xs: seq<Value>, ks: seq<nat>)
    requires Linear(a) && Forward(h, o, k, a, path, x).outcome.Ok?
    ensures Chained(h, o, a, path, Turns(a), xs, ks) && xs[0] == x && ks[0] == k
    ensures var r := Forward(h, o, k, a, path, x); r.outcome == Ok(xs[|xs| - 1]) && r.clock == ks[|ks| - 1]
  {
    if a.kind.Sequence? {
      assert UpTo(|a.children|)[0..] == UpTo(|a.children|);
      xs, ks := StagesChain(h, o, k, a, path, 0, x);
    } else {
      xs, ks := PassesChain(h, o, k, a, path, a.kind.n, x);
    }
  }

  // ---- All at once ------------------------------------------------------------------------------------

  /** Every child from `i` on is invoked with `x`; `ys` are their answers, one each and in order. */
  ghost predicate Answers(h: Hierarchy, o: Oracle, a: Agent, path: string, i: nat, x: Value, ys: seq<Value>,
                          ks: seq<nat>)
  {
    && a.Composite? && i + |ys| == |a.children| && |ks| == |ys| + 1
    && forall j :: 0 <= j < |ys| ==> AnswerAt(h, o, a, path, i, x, ys, ks, j)
  }

  ghost predicate AnswerAt(h: Hierarchy, o: Oracle, a: Agent, path: string, i: nat, x: Value, ys: seq<Value>,
                           ks: seq<nat>, j: nat)
    requires a.Composite? && i + |ys| == |a.children| && |ks| == |ys| + 1 && j < |ys|
  {
    Returns(h, o, ks[j], a, path, i + j, x, ys[j], ks[j + 1])
  }

  lemma AnswersStart(h: Hierarchy, o: Oracle, a: Agent, path: string, i: nat, x: Value, ys: seq<Value>, ks: seq<nat>,
                     k: nat, y: Value)
    requires Answers(h, o, a, path, i + 1, x, ys, ks) && Returns(h, o, k, a, path, i, x, y, ks[0])
    ensures Answers(h, o, a, path, i, x, [y] + ys, [k] + ks)
  {
    hide Returns;
    forall j | 0 <= j < |ys| + 1
      ensures AnswerAt(h, o, a, path, i, x, [y] + ys, [k] + ks, j)
    {
      if j > 0 {
        assert AnswerAt(h, o, a, path, i + 1, x, ys, ks, j - 1);
      }
    }
  }

  lemma {:induction false} GatherAnswers(h: Hierarchy, o: Oracle, k: nat, a: Agent, path: string, i: nat, x: Value,
                                         values: seq<Value>)
    returns (ys: seq<Value>, ks: seq<nat>)
    requires a.Composite? && i <= |a.children| && Gather(h, o, k, a, path, i, x, values).error.None?
    ensures Answers(h, o, a, path, i, x, ys, ks) && ks[0] == k
    ensures var g := Gather(h, o, k, a, path, i, x, values); g.values == values + ys && g.clock == ks[|ks| - 1]
    decreases |a.children| - i
  {
    hide Invoke;
    if i == |a.children| {
      ys, ks := [], [k];
    } else {
      var r := Invoke(h, o, k, a.children[i].agent, PathOf(a, path, i), x);
      var y := r.outcome.value;
      var zs, ls := GatherAnswers(h, o, r.clock, a, path, i + 1, x, values + [y]);
      AnswersStart(h, o, a, path, i, x, zs, ls, k, y);
      assert values + [y] + zs == values + ([y] + zs);
      ys, ks := [y] + zs, [k] + ls;
    }
  }

  /** PARALLEL: every child is handed the input, `combine` is given all their answers, one each and in
      the order of the children, and its answer is returned. */
  lemma ParallelReturns(h: Hierarchy, o: Oracle, k: nat, a: Agent, path: string, x: Value)
    returns (ys: seq<Value>, ks: seq<nat>)
    requires a.Composite? && a.kind.Fan? && Forward(h, o, k, a, path, x).outcome.Ok?
    ensures Answers(h, o, a, path, 0, x, ys, ks) && ks[0] == k && |ys| == |a.children|
    ensures var r := Forward(h, o, k, a, path, x);
      o.combine(ks[|ys|], a, ys) == Answer(r.outcome.value) && r.clock == ks[|ys|] + 1
  {
    ys, ks := GatherAnswers(h, o, k, a, path, 0, x, []);
    assert [] + ys == ys;
  }

  /** Child `j` of those from `i` on runs between the two clocks, however it ends. */
  ghost predicate RunAt(h: Hierarchy, o: Oracle, a: Agent, path: string, i: nat, x: Value, ks: seq<nat>, j: nat)
    requires a.Composite? && i <= j < |a.children| && |ks| == |a.children| - i + 1
  {
    Invoke(h, o, ks[j - i], a.children[j].agent, PathOf(a, path, j), x).clock == ks[j - i + 1]
  }

  function OutcomeAt(h: Hierarchy, o: Oracle, a: Agent, path: string, i: nat, x: Value, ks: seq<nat>, j: nat): Outcome
    requires a.Composite? && i <= j < |a.children| && |ks| == |a.children| - i + 1
  {
    Invoke(h, o, ks[j - i], a.children[j].agent, PathOf(a, path, j), x).outcome
  }

  lemma {:induction false} GatherFails(h: Hierarchy, o: Oracle, k: nat, a: Agent, path: string, i: nat, x: Value,
                                       values: seq<Value>)
    returns (ks: seq<nat>)
    requires a.Composite? && i <= |a.children|
    ensures |ks| == |a.children| - i + 1 && ks[0] == k
    ensures forall j :: i <= j < |a.children| ==> RunAt(h, o, a, path, i, x, ks, j)
    ensures var g := Gather(h, o, k, a, path, i, x, values);
      && g.clock == ks[|ks| - 1]
      && (g.error.None? ==> forall j :: i <= j < |a.children| ==> OutcomeAt(h, o, a, path, i, x, ks, j).Ok?)
      && (g.error.Some? ==> exists f :: i <= f < |a.children| && FirstToFail(h, o, a, path, i, x, ks, f, g.error.value))
    decreases |a.children| - i
  {
    hide Invoke;
    if i == |a.children| {
      ks := [k];
    } else {
      var r := Invoke(h, o, k, a.children[i].agent, PathOf(a, path, i), x);
      var more := if r.outcome.Ok? then values + [r.outcome.value] else values;
      var g := Gather(h, o, r.clock, a, path, i + 1, x, more);
      var ls := GatherFails(h, o, r.clock, a, path, i + 1, x, more);
      ks := [k] + ls;
      forall j | i <= j < |a.children|
        ensures RunAt(h, o, a, path, i, x, ks, j)
        ensures j > i ==> OutcomeAt(h, o, a, path, i, x, ks, j) == OutcomeAt(h, o, a, path, i + 1, x, ls, j)
      {
        if j > i {
          assert RunAt(h, o, a, path, i + 1, x, ls, j) && ks[j - i] == ls[j - i - 1] && ks[j - i + 1] == ls[j - i];
        }
      }
      if r.outcome.Err? {
        assert FirstToFail(h, o, a, path, i, x, ks, i, r.outcome.error);
      } else if g.error.Some? {
        var f :| i + 1 <= f < |a.children| && FirstToFail(h, o, a, path, i + 1, x, ls, f, g.error.value);
        assert OutcomeAt(h, o, a, path, i, x, ks, i).Ok?;
        assert FirstToFail(h, o, a, path, i, x, ks, f, g.error.value);
      }
    }
  }

  ghost predicate FirstToFail(h: Hierarchy, o: Oracle, a: Agent, path: string, i: nat, x: Value, ks: seq<nat>, f: nat,
                              e: Error)
    requires a.Composite? && i <= f < |a.children| && |ks| == |a.children| - i + 1
  {
    OutcomeAt(h, o, a, path, i, x, ks, f) == Err(e) &&
    forall j :: i <= j < f ==> OutcomeAt(h, o, a, path, i, x, ks, j).Ok?
  }

  /** A FAILING CHILD does not keep the others from running; the error is that of the first child in
      order that failed, and without one `combine` crashed. */
  lemma ParallelFails(h: Hierarchy, o: Oracle, k: nat, a: Agent, path: string, x: Value) returns (ks: seq<nat>)
    requires a.Composite? && a.kind.Fan? && Forward(h, o, k, a, path, x).outcome.Err?
    ensures |ks| == |a.children| + 1 && ks[0] == k
    ensures forall j :: 0 <= j < |a.children| ==> RunAt(h, o, a, path, 0, x, ks, j)
    ensures var e := Forward(h, o, k, a, path, x).outcome.error;
      || (exists f :: 0 <= f < |a.children| && FirstToFail(h, o, a, path, 0, x, ks, f, e))
      || (e == Crashed && forall j :: 0 <= j < |a.children| ==> OutcomeAt(h, o, a, path, 0, x, ks, j).Ok?)
  {
    ks := GatherFails(h, o, k, a, path, 0, x, []);
  }

  // ---- One of several ----------------------------------------------------------------------------------

  lemma {:induction false} BranchMissed(children: seq<Child>, key: Key, i: nat)
    requires 1 <= i <= |children|
    ensures Branch(children, key, i) == |children| <==> forall j :: i <= j < |children| ==> children[j].key != key
    decreases |children| - i
  {
    if i < |children| && children[i].key != key {
      BranchMissed(children, key, i + 1);
    }
  }

  /** ROUTER: the selector is handed the input. The branch whose key it answers is invoked, with the
      input or with what `branch_input` makes of it, and its answer is returned. */
  lemma RouterReturns(h: Hierarchy, o: Oracle, k: nat, a: Agent, path: string, x: Value)
    returns (choice: Value, k1: nat, j: nat, z: Value)
    requires a.Composite? && a.kind.Route? && WellFormed(a) && Forward(h, o, k, a, path, x).outcome.Ok?
    ensures Returns(h, o, k, a, path, 0, x, choice, k1)
    ensures 1 <= j < |a.children| && a.children[j].key == choice.key
    ensures z == if a.kind.adapted then o.adapt(k1, a, x, choice, j) else x
    ensures var r := Forward(h, o, k, a, path, x); Returns(h, o, k1, a, path, j, z, r.outcome.value, r.clock)
  {
    hide Invoke;
    var r := Invoke(h, o, k, a.children[0].agent, PathOf(a, path, 0), x);
    choice, k1 := r.outcome.value, r.clock;
    j := Branch(a.children, choice.key, 1);
    z := if a.kind.adapted then o.adapt(k1, a, x, choice, j) else x;
  }

  /** It misses exactly when no branch has the key, and then nothing but the selector has run. */
  lemma RouterMissesIff(h: Hierarchy, o: Oracle, k: nat, a: Agent, path: string, x: Value, choice: Value, k1: nat)
    requires a.Composite? && a.kind.Route? && WellFormed(a) && Returns(h, o, k, a, path, 0, x, choice, k1)
    ensures (forall j :: 1 <= j < |a.children| ==> a.children[j].key != choice.key) ==>
      Forward(h, o, k, a, path, x).outcome == Err(RouterMiss) && Forward(h, o, k, a, path, x).clock == k1
    ensures forall j :: 1 <= j < |a.children| && a.children[j].key == choice.key ==>
      var z := if a.kind.adapted then o.adapt(k1, a, x, choice, j) else x;
      var r := Invoke(h, o, k1, a.children[j].agent, PathOf(a, path, j), z);
      Forward(h, o, k, a, path, x).outcome == r.outcome && Forward(h, o, k, a, path, x).clock == r.clock
  {
    hide Invoke;
    BranchMissed(a.children, choice.key, 1);
    var i := Branch(a.children, choice.key, 1);
    forall j | 1 <= j < |a.children| && a.children[j].key == choice.key
      ensures j == i
    {
      if i < |a.children| {
        assert a.children[i].key == a.children[j].key;
      }
    }
  }

  // ---- What is raised on the way ------------------------------------------------------------------------

  /** Whoever returns has raised nothing; whoever fails reports an error that was raised. */
  ghost predicate Reported(r: Run) {
    match r.outcome
    case Ok(_) => r.raised == []
    case Err(e) => e in r.raised
  }

  /** NO ERROR IS LOST: an invocation returns exactly when nothing was raised anywhere below it, by
      gathered siblings either; else its error is one of those that were. */
  lemma {:induction false} ErrorsSurface(h: Hierarchy, o: Oracle, k: nat, a: Agent, path: string, x: Value)
    ensures var r := Invoke(h, o, k, a, path, x); Reported(r) && (r.outcome.Ok? <==> r.raised == [])
    decreases a, 4
  {
    if a.Composite? {
      ForwardSurfaces(h, o, k, a, path, x);
    }
  }

  lemma {:induction false} ForwardSurfaces(h: Hierarchy, o: Oracle, k: nat, a: Agent, path: string, x: Value)
    requires a.Composite?
    ensures Reported(Forward(h, o, k, a, path, x))
    decreases a, 3
  {
    match a.kind
    case Sequence => StagesSurface(h, o, k, a, path, 0, x);
    case LoopOf(n) => PassesSurface(h, o, k, a, path, n, x);
    case Fan(_) => GatherSurfaces(h, o, k, a, path, 0, x, []);
    case Route(_) =>
      if |a.children| > 0 {
        ErrorsSurface(h, o, k, a.children[0].agent, PathOf(a, path, 0), x);
        var r := Invoke(h, o, k, a.children[0].agent, PathOf(a, path, 0), x);
        if r.outcome.Ok? {
          var i := Branch(a.children, r.outcome.value.key, 1);
          if i < |a.children| {
            var z := if a.kind.adapted then o.adapt(r.clock, a, x, r.outcome.value, i) else x;
            ErrorsSurface(h, o, r.clock, a.children[i].agent, PathOf(a, path, i), z);
          }
        }
      }
  }

  lemma {:induction false} StagesSurface(h: Hierarchy, o: Oracle, k: nat, a: Agent, path: string, i: nat, x: Value)
    requires a.Composite? && i <= |a.children|
    ensures Reported(Stages(h, o, k, a, path, i, x))
    decreases a, 1, |a.children| - i
  {
    hide Invoke;
    if i < |a.children| {
      ErrorsSurface(h, o, k, a.children[i].agent, PathOf(a, path, i), x);
      var r := Invoke(h, o, k, a.children[i].agent, PathOf(a, path, i), x);
      if r.outcome.Ok? {
        StagesSurface(h, o, r.clock, a, path, i + 1, r.outcome.value);
      }
    }
  }

  lemma {:induction false} PassesSurface(h: Hierarchy, o: Oracle, k: nat, a: Agent, path: string, n: nat, x: Value)
    requires a.Composite?
    ensures Reported(Passes(h, o, k, a, path, n, x))
    decreases a, 2, n
  {
    hide Stages;
    if n > 0 {
      StagesSurface(h, o, k, a, path, 0, x);
      var r := Stages(h, o, k, a, path, 0, x);
      if r.outcome.Ok? {
        PassesSurface(h, o, r.clock, a, path, n - 1, r.outcome.value);
      }
    }
  }

  lemma {:induction false} GatherSurfaces(h: Hierarchy, o: Oracle, k: nat, a: Agent, path: string, i: nat, x: Value,
                                          values: seq<Value>)
    requires a.Composite? && i <= |a.children|
    ensures var g := Gather(h, o, k, a, path, i, x, values);
      if g.error.Some? then g.error.value in g.raised else g.raised == []
    decreases a, 1, |a.children| - i
  {
    hide Invoke;
    if i < |a.children| {
      ErrorsSurface(h, o, k, a.children[i].agent, PathOf(a, path, i), x);
      var r := Invoke(h, o, k, a.children[i].agent, PathOf(a, path, i), x);
      GatherSurfaces(h, o, r.clock, a, path, i + 1, x, if r.outcome.Ok? then values + [r.outcome.value] else values);
    }
  }
}
