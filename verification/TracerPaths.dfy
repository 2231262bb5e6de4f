/** Which paths `build()` records: the tracer keeps one stack for all gathered tasks. */
module TracerPaths {
  import opened Options
  import opened Architectures

  // ---- The tracer as tasks on an event loop ------------------------------------------------------

  // The tracer keeps one stack for all tasks: whoever runs finds on it what others have left there.

  /** What is left of a task: `record` one agent, `gather` the children of one, or leave the agent
      entered last. `own` is the path that the same invocation reports at run time. */
  datatype Work =
    | Call(agent: Agent, own: string)
    | Fork(agent: Agent, own: string)
    | Return

  datatype Frame = Frame(agent: Agent, path: string)

  /** A node of the graph. */
  datatype Node = Node(path: string, input: Class, output: Class)

  function NodeOf(a: Agent, path: string): Node {
    Node(path, a.input, a.output)
  }

  /** A node was recorded for an invocation whose path at run time is `own`. */
  datatype Event = Event(node: Node, own: string)

  /** `joins` is the gather that waits for the task. */
  datatype Task = Task(todo: seq<Work>, joins: Option<nat>)

  /** What the event loop has ready: a task to go on with, or the news that one is finished. */
  datatype Item = Resume(task: Task) | Finished(gather: nat)

  /** A task suspended in a gather, and how many gathered tasks it still waits for. */
  datatype Waiting = Waiting(left: nat, task: Task)

  datatype Tracer = Tracer(
    root: Agent,
    stack: seq<Frame>,
    log: seq<Event>,
    ready: seq<Item>,
    waiting: map<nat, Waiting>,
    next: nat)

  /** The agent whose child `record` believes to trace. */
  function Top(root: Agent, stack: seq<Frame>): Frame {
    if |stack| == 0 then Frame(root, root.name) else stack[|stack| - 1]
  }

  function Callee(root: Agent, stack: seq<Frame>, a: Agent): string {
    var top := Top(root, stack);
    top.path + "." + Hint(if top.agent.Composite? then top.agent.children else [], a)
  }

  function UpTo(n: nat): seq<nat> {
    seq(n, i => i)
  }

  function Rounds(n: nat, rounds: nat): seq<nat> {
    if rounds == 0 then [] else UpTo(n) + Rounds(n, rounds - 1)
  }

  /** The children that `forward` invokes under the tracer, in order. */
  function Turns(a: Agent): (js: seq<nat>)
    requires a.Composite?
    ensures forall i :: 0 <= i < |js| ==> js[i] < |a.children|
  {
    if a.kind.LoopOf? then RoundsBounded(|a.children|, a.kind.n); Rounds(|a.children|, a.kind.n)
    else UpTo(|a.children|)
  }

  lemma {:induction false} RoundsBounded(n: nat, rounds: nat)
    ensures forall i :: 0 <= i < |Rounds(n, rounds)| ==> Rounds(n, rounds)[i] < n
  {
    if rounds > 0 {
      RoundsBounded(n, rounds - 1);
    }
  }

  ghost predicate ChildIndices(a: Agent, js: seq<nat>) {
    a.Composite? && forall i :: 0 <= i < |js| ==> js[i] < |a.children|
  }

  function CallsOf(a: Agent, own: string, js: seq<nat>): seq<Work>
    requires ChildIndices(a, js)
  {
    if |js| == 0 then []
    else [Call(a.children[js[0]].agent, PathOf(a, own, js[0]))] + CallsOf(a, own, js[1..])
  }

  lemma FirstCall(a: Agent, own: string, js: seq<nat>, rest: seq<Work>)
    requires ChildIndices(a, js) && |js| > 0
    ensures CallsOf(a, own, js) + rest ==
            [Call(a.children[js[0]].agent, PathOf(a, own, js[0]))] + (CallsOf(a, own, js[1..]) + rest)
  {
  }

  /** `forward` under the tracer. */
  function Body(a: Agent, own: string): seq<Work>
    requires a.Composite?
  {
    if a.kind.Fan? then [Fork(a, own)] else CallsOf(a, own, Turns(a))
  }

  /** One task for each gathered child, from child `i` on. */
  function Forks(a: Agent, own: string, i: nat, gather: nat): seq<Item>
    requires a.Composite? && i <= |a.children|
    decreases |a.children| - i
  {
    if i == |a.children| then []
    else
      [Resume(Task([Call(a.children[i].agent, PathOf(a, own, i))], Some(gather)))] + Forks(a, own, i + 1, gather)
  }

  /** The event loop runs the first ready item up to its next piece of work; `gather` suspends the
      task and makes the gathered ones ready, behind those that are ready already. */
  function Step(m: Tracer): Tracer {
    if |m.ready| == 0 then m
    else
      match m.ready[0]
      case Finished(g) => Joined(m.(ready := m.ready[1..]), g)
      case Resume(t) =>
        if |t.todo| == 0 then
          m.(ready := m.ready[1..] + if t.joins.Some? then [Finished(t.joins.value)] else [])
        else
          var later := t.(todo := t.todo[1..]);
          match t.todo[0]
          case Call(a, own) => Called(m, a, own, later)
          case Return =>
            m.(ready := [Resume(later)] + m.ready[1..],
               stack := if |m.stack| == 0 then [] else m.stack[..|m.stack| - 1])
          case Fork(a, own) =>
            if a.Leaf? || |a.children| == 0 then m.(ready := [Resume(later)] + m.ready[1..])
            else
              m.(ready := m.ready[1..] + Forks(a, own, 0, m.next),
                 waiting := m.waiting[m.next := Waiting(|a.children|, later)],
                 next := m.next + 1)
  }

  /** `record` up to the first child: the node is appended, and an agent with children is pushed. */
  function Called(m: Tracer, a: Agent, own: string, later: Task): Tracer
    requires |m.ready| > 0
  {
    var callee := Callee(m.root, m.stack, a);
    var m' := m.(log := m.log + [Event(NodeOf(a, callee), own)]);
    if a.Leaf? then m'.(ready := [Resume(later)] + m.ready[1..])
    else
      m'.(ready := [Resume(later.(todo := Body(a, own) + [Return] + later.todo))] + m.ready[1..],
          stack := m.stack + [Frame(a, callee)])
  }

  /** One of the tasks that gather `g` waits for is finished; after the last one its task is ready. */
  function Joined(m: Tracer, g: nat): Tracer {
    if g !in m.waiting then m
    else
      var w := m.waiting[g];
      if w.left > 1 then m.(waiting := m.waiting[g := Waiting(w.left - 1, w.task)])
      else m.(waiting := m.waiting - {g}, ready := m.ready + [Resume(w.task)])
  }

  function Steps(n: nat, m: Tracer): Tracer {
    if n == 0 then m else Steps(n - 1, Step(m))
  }

  /** `_trace`: the root's own `forward`. */
  function Start(root: Agent): Tracer
    requires root.Composite?
  {
    Tracer(root, [], [], [Resume(Task(Body(root, root.name), None))], map[], 0)
  }

  function Recorded(log: seq<Event>): seq<Node> {
    seq(|log|, i requires 0 <= i < |log| => log[i].node)
  }

  /** The nodes of the graph. */
  function Nodes(m: Tracer): seq<Node> {
    [NodeOf(m.root, m.root.name)] + Recorded(m.log)
  }

  /** Every invocation was recorded under the path that it reports when it runs. */
  ghost predicate Faithful(log: seq<Event>) {
    forall i :: 0 <= i < |log| ==> log[i].node.path == log[i].own
  }

  // ---- The condition --------------------------------------------------------------------------------

  /** Tracing the agent suspends its task: there is a gather in it, at any depth. */
  ghost predicate Suspends(a: Agent) {
    a.Composite? && (a.kind.Fan? || exists i :: 0 <= i < |a.children| && Suspends(a.children[i].agent))
  }

  /** Of the children that are gathered together only the last may gather again. */
  ghost predicate Tame(a: Agent) {
    a.Composite? ==>
      && (forall i :: 0 <= i < |a.children| ==> Tame(a.children[i].agent))
      && (a.kind.Fan? ==> forall i :: 0 <= i < |a.children| - 1 ==> !Suspends(a.children[i].agent))
  }

  /** The stricter condition that no gather is below another. */
  ghost predicate NoNestedGather(a: Agent) {
    a.Composite? ==>
      && (forall i :: 0 <= i < |a.children| ==> NoNestedGather(a.children[i].agent))
      && (a.kind.Fan? ==> forall i :: 0 <= i < |a.children| ==> !Suspends(a.children[i].agent))
  }

  /** Attribute names, and names used in their place, hold no dot. */
  ghost predicate PlainNames(a: Agent) {
    a.Composite? ==>
      forall i :: 0 <= i < |a.children| ==>
        '.' !in Hint(a.children, a.children[i].agent) && PlainNames(a.children[i].agent)
  }

  lemma {:induction false} CalmIsTame(a: Agent)
    requires !Suspends(a)
    ensures Tame(a) && NoNestedGather(a)
  {
    if a.Composite? {
      forall i | 0 <= i < |a.children|
        ensures Tame(a.children[i].agent) && NoNestedGather(a.children[i].agent)
      {
        CalmIsTame(a.children[i].agent);
      }
    }
  }

  lemma {:induction false} UnnestedIsTame(a: Agent)
    requires NoNestedGather(a)
    ensures Tame(a)
  {
    if a.Composite? {
      forall i | 0 <= i < |a.children|
        ensures Tame(a.children[i].agent)
      {
        UnnestedIsTame(a.children[i].agent);
      }
    }
  }

  // ---- What a run can report ------------------------------------------------------------------------

  /** The nodes of an agent and of what it invokes, under their own paths, in the order of its code. */
  function Planned(a: Agent, own: string): (ns: seq<Node>)
    ensures |ns| >= 1 && ns[0] == NodeOf(a, own)
    decreases a, 1, 0
  {
    [NodeOf(a, own)] + if a.Composite? then PlannedAll(a, own, Turns(a)) else []
  }

  function PlannedAll(a: Agent, own: string, js: seq<nat>): seq<Node>
    requires ChildIndices(a, js)
    decreases a, 0, |js|
  {
    if |js| == 0 then []
    else Planned(a.children[js[0]].agent, PathOf(a, own, js[0])) + PlannedAll(a, own, js[1..])
  }

  /** Invocations recorded under their own paths. */
  function Told(ns: seq<Node>): seq<Event> {
    seq(|ns|, i requires 0 <= i < |ns| => Event(ns[i], ns[i].path))
  }

  lemma ToldJoins(ps: seq<Node>, qs: seq<Node>)
    ensures Told(ps) + Told(qs) == Told(ps + qs)
  {
  }

  // ---- Runs of the event loop ------------------------------------------------------------------------

  lemma {:induction false} StepsAdd(j: nat, k: nat, m: Tracer)
    ensures Steps(j + k, m) == Steps(k, Steps(j, m))
    decreases j
  {
    if j > 0 {
      StepsAdd(j - 1, k, Step(m));
    }
  }

  /** The first ready task has `todo` left. */
  ghost predicate At(m: Tracer, todo: seq<Work>, joins: Option<nat>) {
    |m.ready| > 0 && m.ready[0] == Resume(Task(todo, joins))
  }

  function GoesOn(m: Tracer, rest: seq<Work>, joins: Option<nat>, ps: seq<Node>): Tracer
    requires |m.ready| > 0
  {
    m.(ready := [Resume(Task(rest, joins))] + m.ready[1..], log := m.log + Told(ps))
  }

  lemma CallStep(m: Tracer, a: Agent, own: string, rest: seq<Work>, joins: Option<nat>)
    requires At(m, [Call(a, own)] + rest, joins) && Callee(m.root, m.stack, a) == own
    ensures a.Leaf? ==> Step(m) == GoesOn(m, rest, joins, [NodeOf(a, own)])
    ensures a.Composite? ==>
      Step(m) == GoesOn(m, Body(a, own) + ([Return] + rest), joins, [NodeOf(a, own)])
                 .(stack := m.stack + [Frame(a, own)])
  {
    assert ([Call(a, own)] + rest)[1..] == rest;
    assert Told([NodeOf(a, own)]) == [Event(NodeOf(a, own), own)];
    if a.Composite? {
      assert Body(a, own) + [Return] + rest == Body(a, own) + ([Return] + rest);
    }
  }

  lemma ReturnStep(m: Tracer, rest: seq<Work>, joins: Option<nat>, stack: seq<Frame>, f: Frame)
    requires At(m, [Return] + rest, joins) && m.stack == stack + [f]
    ensures Step(m) == m.(ready := [Resume(Task(rest, joins))] + m.ready[1..], stack := stack)
  {
    assert ([Return] + rest)[1..] == rest;
  }

  /** Tracing an agent without a gather does not suspend: whatever else is ready waits meanwhile. */
  lemma {:induction false} QuietRuns(m: Tracer, a: Agent, own: string, rest: seq<Work>, joins: Option<nat>)
    returns (k: nat)
    requires !Suspends(a) && At(m, [Call(a, own)] + rest, joins) && Callee(m.root, m.stack, a) == own
    ensures Steps(k, m) == GoesOn(m, rest, joins, Planned(a, own))
    decreases a, 1, 0
  {
    CallStep(m, a, own, rest, joins);
    if a.Leaf? {
      k := 1;
      assert Steps(1, m) == Step(m);
    } else {
      k := QuietRunsAll(Step(m), a, own, Turns(a), [Return] + rest, joins);
      CallReturns(m, a, own, rest, joins, k, PlannedAll(a, own, Turns(a)));
      k := k + 2;
    }
  }

  /** The children's part of a call makes the whole call. */
  lemma CallReturns(m: Tracer, a: Agent, own: string, rest: seq<Work>, joins: Option<nat>, k: nat, ps: seq<Node>)
    requires a.Composite? && At(m, [Call(a, own)] + rest, joins) && Callee(m.root, m.stack, a) == own
    requires Steps(k, Step(m)) == GoesOn(Step(m), [Return] + rest, joins, ps)
    ensures Steps(k + 2, m) == GoesOn(m, rest, joins, [NodeOf(a, own)] + ps)
  {
    CallStep(m, a, own, rest, joins);
    var m1 := Step(m);
    var m2 := Steps(k, m1);
    ReturnStep(m2, rest, joins, m.stack, Frame(a, own));
    StepsAdd(k, 1, m1);
    assert Steps(1, m2) == Step(m2);
    ToldJoins([NodeOf(a, own)], ps);
    assert m.log + Told([NodeOf(a, own)]) + Told(ps) == m.log + Told([NodeOf(a, own)] + ps);
    assert Steps(k + 2, m) == Steps(k + 1, m1);
  }

  lemma GoesOnTwice(m: Tracer, todo: seq<Work>, rest: seq<Work>, joins: Option<nat>, ps: seq<Node>, qs: seq<Node>)
    requires |m.ready| > 0
    ensures GoesOn(GoesOn(m, todo, joins, ps), rest, joins, qs) == GoesOn(m, rest, joins, ps + qs)
  {
    ToldJoins(ps, qs);
    assert m.log + Told(ps) + Told(qs) == m.log + Told(ps + qs);
  }

  lemma {:induction false} QuietRunsAll(m: Tracer, a: Agent, own: string, js: seq<nat>, rest: seq<Work>,
                                        joins: Option<nat>)
    returns (k: nat)
    requires !Suspends(a) && ChildIndices(a, js) && At(m, CallsOf(a, own, js) + rest, joins)
    requires Top(m.root, m.stack) == Frame(a, own)
    ensures Steps(k, m) == GoesOn(m, rest, joins, PlannedAll(a, own, js))
    decreases a, 0, |js|
  {
    if |js| == 0 {
      assert CallsOf(a, own, js) + rest == rest;
      assert m.log + Told([]) == m.log;
      k := 0;
    } else {
      var c, p := a.children[js[0]].agent, PathOf(a, own, js[0]);
      FirstCall(a, own, js, rest);
      var k1 := QuietRuns(m, c, p, CallsOf(a, own, js[1..]) + rest, joins);
      var m1 := Steps(k1, m);
      var k2 := QuietRunsAll(m1, a, own, js[1..], rest, joins);
      StepsAdd(k1, k2, m);
      GoesOnTwice(m, CallsOf(a, own, js[1..]) + rest, rest, joins, Planned(c, p), PlannedAll(a, own, js[1..]));
      k := k1 + k2;
    }
  }

  // ---- A tame tree is traced as if its code ran in order --------------------------------------------

  function News(g: nat, n: nat): seq<Item> {
    seq(n, _ => Finished(g))
  }

  ghost predicate FreshId(m: Tracer) {
    forall g :: g in m.waiting ==> g < m.next
  }

  /** Nothing but the first task can go on: what else is ready is the news that the tasks gathered
      with it have finished, and its gather waits for those and for it. */
  ghost predicate Idle(m: Tracer, joins: Option<nat>) {
    && |m.ready| > 0 && FreshId(m)
    && match joins
       case None => |m.ready| == 1
       case Some(g) => g in m.waiting && m.waiting[g].left == |m.ready| && m.ready[1..] == News(g, |m.ready| - 1)
  }

  ghost predicate SameWaiting(m: Tracer, m': Tracer, joins: Option<nat>) {
    && m'.waiting.Keys == m.waiting.Keys
    && forall g :: g in m.waiting ==>
         m'.waiting[g].task == m.waiting[g].task && (joins == Some(g) || m'.waiting[g] == m.waiting[g])
  }

  /** From `m` to `m2` the first task went on to `rest`, and recorded `ps`. */
  ghost predicate Went(m: Tracer, m2: Tracer, rest: seq<Work>, joins: Option<nat>, ps: seq<Node>) {
    && At(m2, rest, joins) && Idle(m2, joins) && SameWaiting(m, m2, joins)
    && m2.root == m.root && m2.stack == m.stack && m2.next >= m.next
    && m2.log == m.log + Told(ps)
  }

  lemma WentOn(m: Tracer, m1: Tracer, m2: Tracer, rest1: seq<Work>, rest2: seq<Work>, joins: Option<nat>,
               ps: seq<Node>, qs: seq<Node>)
    requires Went(m, m1, rest1, joins, ps) && Went(m1, m2, rest2, joins, qs)
    ensures Went(m, m2, rest2, joins, ps + qs)
  {
    ToldJoins(ps, qs);
    assert m.log + Told(ps) + Told(qs) == m.log + (Told(ps) + Told(qs));
  }

  lemma GoesOnWent(m: Tracer, rest: seq<Work>, joins: Option<nat>, ps: seq<Node>)
    requires Idle(m, joins)
    ensures Went(m, GoesOn(m, rest, joins, ps), rest, joins, ps)
  {
  }

  lemma {:induction false} NewsArrives(m: Tracer, g: nat, n: nat, later: seq<Item>)
    requires m.ready == News(g, n) + later && g in m.waiting && m.waiting[g].left > n
    ensures Steps(n, m) ==
            m.(ready := later, waiting := m.waiting[g := Waiting(m.waiting[g].left - n, m.waiting[g].task)])
    decreases n
  {
    var w := m.waiting[g];
    if n == 0 {
      assert News(g, 0) + later == later;
      assert m.waiting[g := Waiting(w.left - 0, w.task)] == m.waiting;
    } else {
      assert m.ready[0] == Finished(g) && m.ready[1..] == News(g, n - 1) + later;
      var m1 := Step(m);
      assert m1 == m.(ready := News(g, n - 1) + later, waiting := m.waiting[g := Waiting(w.left - 1, w.task)]);
      NewsArrives(m1, g, n - 1, later);
    }
  }

  lemma {:induction false} TameRuns(m: Tracer, a: Agent, own: string, rest: seq<Work>, joins: Option<nat>)
    returns (k: nat)
    requires WellFormed(a) && Tame(a) && Idle(m, joins)
    requires At(m, [Call(a, own)] + rest, joins) && Callee(m.root, m.stack, a) == own
    ensures Went(m, Steps(k, m), rest, joins, Planned(a, own))
    decreases a, 2, 0
  {
    if !Suspends(a) {
      k := QuietRuns(m, a, own, rest, joins);
      GoesOnWent(m, rest, joins, Planned(a, own));
    } else {
      var m1 := CallGoes(m, a, own, rest, joins);
      if a.kind.Fan? {
        k := GatherRuns(m1, a, own, [Return] + rest, joins);
      } else {
        k := TameRunsAll(m1, a, own, Turns(a), [Return] + rest, joins);
      }
      TameReturns(m, m1, a, own, rest, joins, k, PlannedAll(a, own, Turns(a)));
      k := k + 2;
    }
  }

  /** The first step of a call leads to the body of its agent. */
  lemma CallGoes(m: Tracer, a: Agent, own: string, rest: seq<Work>, joins: Option<nat>) returns (m1: Tracer)
    requires a.Composite? && Idle(m, joins)
    requires At(m, [Call(a, own)] + rest, joins) && Callee(m.root, m.stack, a) == own
    ensures m1 == Step(m) && Idle(m1, joins) && At(m1, Body(a, own) + ([Return] + rest), joins)
    ensures m1 == m.(ready := m1.ready, stack := m.stack + [Frame(a, own)], log := m.log + Told([NodeOf(a, own)]))
  {
    CallStep(m, a, own, rest, joins);
    m1 := Step(m);
    assert m1.ready[1..] == m.ready[1..];
  }

  lemma TameReturns(m: Tracer, m1: Tracer, a: Agent, own: string, rest: seq<Work>, joins: Option<nat>, k: nat,
                    ps: seq<Node>)
    requires m1 == Step(m)
    requires m1 == m.(ready := m1.ready, stack := m.stack + [Frame(a, own)], log := m.log + Told([NodeOf(a, own)]))
    requires Went(m1, Steps(k, m1), [Return] + rest, joins, ps)
    ensures Went(m, Steps(k + 2, m), rest, joins, [NodeOf(a, own)] + ps)
  {
    TwoMoreSteps(k, m, m1, Steps(k, m1));
    WentBack(m, m1, Steps(k, m1), a, own, rest, joins, ps);
  }

  lemma TwoMoreSteps(k: nat, m: Tracer, m1: Tracer, m2: Tracer)
    requires m1 == Step(m) && m2 == Steps(k, m1)
    ensures Steps(k + 2, m) == Step(m2)
  {
    OneMoreStep(k, m1);
    assert Steps(k + 2, m) == Steps(k + 1, m1);
  }

  lemma WentBack(m: Tracer, m1: Tracer, m2: Tracer, a: Agent, own: string, rest: seq<Work>, joins: Option<nat>,
                 ps: seq<Node>)
    requires m1 == m.(ready := m1.ready, stack := m.stack + [Frame(a, own)], log := m.log + Told([NodeOf(a, own)]))
    requires Went(m1, m2, [Return] + rest, joins, ps)
    ensures Went(m, Step(m2), rest, joins, [NodeOf(a, own)] + ps)
  {
    ReturnStep(m2, rest, joins, m.stack, Frame(a, own));
    ToldJoins([NodeOf(a, own)], ps);
    assert m.log + Told([NodeOf(a, own)]) + Told(ps) == m.log + (Told([NodeOf(a, own)]) + Told(ps));
    assert Step(m2).ready[1..] == m2.ready[1..];
  }

  lemma {:induction false} TameRunsAll(m: Tracer, a: Agent, own: string, js: seq<nat>, rest: seq<Work>,
                                       joins: Option<nat>)
    returns (k: nat)
    requires WellFormed(a) && Tame(a) && Idle(m, joins)
    requires ChildIndices(a, js) && At(m, CallsOf(a, own, js) + rest, joins)
    requires Top(m.root, m.stack) == Frame(a, own)
    ensures Went(m, Steps(k, m), rest, joins, PlannedAll(a, own, js))
    decreases a, 0, |js|
  {
    if |js| == 0 {
      assert CallsOf(a, own, js) + rest == rest;
      assert m.log + Told([]) == m.log;
      k := 0;
    } else {
      var c, p := a.children[js[0]].agent, PathOf(a, own, js[0]);
      var todo := CallsOf(a, own, js[1..]) + rest;
      FirstCall(a, own, js, rest);
      var k1 := TameRuns(m, c, p, todo, joins);
      var m1 := Steps(k1, m);
      var k2 := TameRunsAll(m1, a, own, js[1..], rest, joins);
      StepsAdd(k1, k2, m);
      WentOn(m, m1, Steps(k2, m1), todo, rest, joins, Planned(c, p), PlannedAll(a, own, js[1..]));
      k := k1 + k2;
    }
  }

  lemma {:induction false} GatherRuns(m: Tracer, a: Agent, own: string, rest: seq<Work>, joins: Option<nat>)
    returns (k: nat)
    requires WellFormed(a) && Tame(a) && a.Composite? && a.kind.Fan? && Idle(m, joins)
    requires At(m, [Fork(a, own)] + rest, joins)
    requires Top(m.root, m.stack) == Frame(a, own)
    ensures Went(m, Steps(k, m), rest, joins, PlannedAll(a, own, Turns(a)))
    decreases a, 1, 0
  {
    var k1, m1 := GatherStarts(m, a, own, rest, joins);
    assert UpTo(|a.children|)[0..] == UpTo(|a.children|);
    var k2 := GatheredRun(m1, a, own, 0, m.next);
    StepsAdd(k1, k2, m);
    k := k1 + k2;
  }

  /** The task suspends, and the news about its own gather arrives before the gathered tasks start. */
  lemma GatherStarts(m: Tracer, a: Agent, own: string, rest: seq<Work>, joins: Option<nat>) returns (k: nat, m1: Tracer)
    requires a.Composite? && |a.children| > 0 && Idle(m, joins) && At(m, [Fork(a, own)] + rest, joins)
    ensures m1 == Steps(k, m) && m1 == m.(ready := m1.ready, waiting := m1.waiting, next := m1.next)
    ensures m1.ready == Forks(a, own, 0, m.next) + News(m.next, 0) && m1.next == m.next + 1 && FreshId(m1)
    ensures m.next in m1.waiting && m1.waiting[m.next] == Waiting(|a.children|, Task(rest, joins))
    ensures m1.waiting - {m.next} == match joins
                                     case None => m.waiting
                                     case Some(g) => m.waiting[g := Waiting(1, m.waiting[g].task)]
  {
    assert ([Fork(a, own)] + rest)[1..] == rest;
    var s := Step(m);
    var g2, tasks := m.next, Forks(a, own, 0, m.next);
    assert s.ready == m.ready[1..] + tasks;
    assert tasks + News(g2, 0) == tasks;
    match joins {
      case None =>
        assert m.ready[1..] + tasks == tasks;
        k, m1 := 1, s;
        assert Steps(1, m) == s;
      case Some(g) =>
        NewsArrives(s, g, |m.ready| - 1, tasks);
        k, m1 := |m.ready|, Steps(|m.ready| - 1, s);
        assert Steps(|m.ready|, m) == Steps(|m.ready| - 1, s);
    }
  }

  /** From `m` to `m2` gather `g` came to its end, and `ps` were recorded. */
  ghost predicate WokenBy(m: Tracer, m2: Tracer, g: nat, ps: seq<Node>)
    requires g in m.waiting
  {
    && m2.ready == [Resume(m.waiting[g].task)] && m2.waiting == m.waiting - {g} && m2.next >= m.next
    && m2.root == m.root && m2.stack == m.stack && m2.log == m.log + Told(ps)
  }

  lemma WokenLater(m: Tracer, m1: Tracer, m2: Tracer, g: nat, ps: seq<Node>, qs: seq<Node>)
    requires g in m.waiting && m1 == m.(ready := m1.ready, log := m.log + Told(ps)) && WokenBy(m1, m2, g, qs)
    ensures WokenBy(m, m2, g, ps + qs)
  {
    ToldJoins(ps, qs);
    assert m.log + Told(ps) + Told(qs) == m.log + (Told(ps) + Told(qs));
  }

  /** The gathered tasks from child `i` on: each runs to its end before the next starts, and the last
      one wakes the task that gathered them. */
  lemma {:induction false} GatheredRun(m: Tracer, a: Agent, own: string, i: nat, g: nat) returns (k: nat)
    requires WellFormed(a) && Tame(a) && a.Composite? && a.kind.Fan? && i < |a.children| && FreshId(m)
    requires m.ready == Forks(a, own, i, g) + News(g, i)
    requires g in m.waiting && m.waiting[g].left == |a.children| && Top(m.root, m.stack) == Frame(a, own)
    ensures WokenBy(m, Steps(k, m), g, PlannedAll(a, own, UpTo(|a.children|)[i..]))
    decreases a, 0, |a.children| - i
  {
    var ps := Planned(a.children[i].agent, PathOf(a, own, i));
    PlannedFrom(a, own, i);
    if i < |a.children| - 1 {
      var k1, m1 := QuietTaskEnds(m, a, own, i, g, News(g, i));
      assert News(g, i) + [Finished(g)] == News(g, i + 1);
      var k2 := GatheredRun(m1, a, own, i + 1, g);
      WokenLater(m, m1, Steps(k2, m1), g, ps, PlannedAll(a, own, UpTo(|a.children|)[i + 1..]));
      StepsAdd(k1, k2, m);
      k := k1 + k2;
    } else {
      k := LastRuns(m, a, own, g);
    }
  }

  lemma PlannedFrom(a: Agent, own: string, i: nat)
    requires a.Composite? && i < |a.children|
    ensures var n, ps := |a.children|, Planned(a.children[i].agent, PathOf(a, own, i));
      && PlannedAll(a, own, UpTo(n)[i..]) == ps + PlannedAll(a, own, UpTo(n)[i + 1..])
      && (i == n - 1 ==> PlannedAll(a, own, UpTo(n)[i..]) == ps)
  {
    var js := UpTo(|a.children|)[i..];
    assert js[0] == i && js[1..] == UpTo(|a.children|)[i + 1..];
  }

  lemma {:induction false} LastRuns(m: Tracer, a: Agent, own: string, g: nat) returns (k: nat)
    requires WellFormed(a) && Tame(a) && a.Composite? && |a.children| > 0 && FreshId(m)
    requires m.ready == Forks(a, own, |a.children| - 1, g) + News(g, |a.children| - 1)
    requires g in m.waiting && m.waiting[g].left == |a.children| && Top(m.root, m.stack) == Frame(a, own)
    ensures var i := |a.children| - 1;
      WokenBy(m, Steps(k, m), g, Planned(a.children[i].agent, PathOf(a, own, i)))
    decreases a, 0, 0
  {
    var n := |a.children|;
    LastIsIdle(m, a, own, g);
    var k1 := TameRuns(m, a.children[n - 1].agent, PathOf(a, own, n - 1), [], Some(g));
    var m1 := Steps(k1, m);
    var k2 := LastEnds(m1, g);
    StepsAdd(k1, k2, m);
    assert m1.waiting - {g} == m.waiting - {g};
    k := k1 + k2;
  }

  lemma LastIsIdle(m: Tracer, a: Agent, own: string, g: nat)
    requires a.Composite? && |a.children| > 0 && FreshId(m)
    requires m.ready == Forks(a, own, |a.children| - 1, g) + News(g, |a.children| - 1)
    requires g in m.waiting && m.waiting[g].left == |a.children| && Top(m.root, m.stack) == Frame(a, own)
    ensures Idle(m, Some(g))
    ensures var i := |a.children| - 1;
      At(m, [Call(a.children[i].agent, PathOf(a, own, i))] + [], Some(g)) &&
      Callee(m.root, m.stack, a.children[i].agent) == PathOf(a, own, i)
  {
    var n := |a.children|;
    FirstGathered(m, a, own, n - 1, g, News(g, n - 1));
    assert Forks(a, own, n, g) == [];
    assert m.ready[1..] == News(g, n - 1);
  }

  /** A gathered task without a gather of its own runs to its end, and the others move up. */
  lemma QuietTaskEnds(m: Tracer, a: Agent, own: string, i: nat, g: nat, tail: seq<Item>) returns (k: nat, m2: Tracer)
    requires a.Composite? && i < |a.children| && !Suspends(a.children[i].agent)
    requires m.ready == Forks(a, own, i, g) + tail && Top(m.root, m.stack) == Frame(a, own)
    ensures m2 == Steps(k, m)
    ensures m2 == m.(ready := Forks(a, own, i + 1, g) + (tail + [Finished(g)]),
                     log := m.log + Told(Planned(a.children[i].agent, PathOf(a, own, i))))
  {
    var c, p := a.children[i].agent, PathOf(a, own, i);
    FirstGathered(m, a, own, i, g, tail);
    var k1 := QuietRuns(m, c, p, [], Some(g));
    OneMoreStep(k1, m);
    k, m2 := k1 + 1, Steps(k1 + 1, m);
    EndsQuietly(m, Steps(k1, m), Planned(c, p), Forks(a, own, i + 1, g), tail, g);
  }

  lemma EndsQuietly(m: Tracer, m1: Tracer, ps: seq<Node>, others: seq<Item>, tail: seq<Item>, g: nat)
    requires |m.ready| > 0 && m.ready[1..] == others + tail && m1 == GoesOn(m, [], Some(g), ps)
    ensures Step(m1) == m.(ready := others + (tail + [Finished(g)]), log := m.log + Told(ps))
  {
    TaskEnds(m1, g);
    assert m1.ready[1..] == m.ready[1..];
    assert others + tail + [Finished(g)] == others + (tail + [Finished(g)]);
  }

  lemma FirstGathered(m: Tracer, a: Agent, own: string, i: nat, g: nat, tail: seq<Item>)
    requires a.Composite? && i < |a.children| && Top(m.root, m.stack) == Frame(a, own)
    requires m.ready == Forks(a, own, i, g) + tail
    ensures At(m, [Call(a.children[i].agent, PathOf(a, own, i))] + [], Some(g))
    ensures Callee(m.root, m.stack, a.children[i].agent) == PathOf(a, own, i)
    ensures m.ready[1..] == Forks(a, own, i + 1, g) + tail
  {
    assert [Call(a.children[i].agent, PathOf(a, own, i))] + [] == [Call(a.children[i].agent, PathOf(a, own, i))];
  }

  lemma TaskEnds(m: Tracer, g: nat)
    requires At(m, [], Some(g))
    ensures Step(m) == m.(ready := m.ready[1..] + [Finished(g)])
  {
  }

  lemma OneMoreStep(k: nat, m: Tracer)
    ensures Steps(k + 1, m) == Step(Steps(k, m))
  {
    StepsAdd(k, 1, m);
    assert Steps(1, Steps(k, m)) == Steps(0, Step(Steps(k, m)));
  }

  /** The last gathered task ends: the news about all of them arrives and wakes the waiting task. */
  lemma LastEnds(m: Tracer, g: nat) returns (k: nat)
    requires At(m, [], Some(g)) && Idle(m, Some(g))
    ensures Steps(k, m) == m.(ready := [Resume(m.waiting[g].task)], waiting := m.waiting - {g})
  {
    var n, w := |m.ready|, m.waiting[g];
    var m1 := Step(m);
    assert m1 == m.(ready := News(g, n));
    assert News(g, n) == News(g, n - 1) + [Finished(g)];
    NewsArrives(m1, g, n - 1, [Finished(g)]);
    var m2 := Steps(n - 1, m1);
    assert Step(m2) == m.(ready := [Resume(w.task)], waiting := m.waiting - {g});
    StepsAdd(n - 1, 1, m1);
    assert Steps(1, m2) == Step(m2);
    k := n + 1;
    assert Steps(k, m) == Steps(n, m1);
  }

  /** The trace of a tame tree ends, and its nodes are the paths that runs report. */
  lemma TameTrace(root: Agent) returns (n: nat)
    requires WellFormed(root) && Tame(root) && root.Composite?
    ensures var m := Steps(n, Start(root));
      m.ready == [] && Faithful(m.log) && Nodes(m) == Planned(root, root.name)
  {
    var m, own := Start(root), root.name;
    var ps := PlannedAll(root, own, Turns(root));
    assert Body(root, own) + [] == Body(root, own);
    if root.kind.Fan? {
      assert [Fork(root, own)] + [] == Body(root, own);
      n := GatherRuns(m, root, own, [], None);
    } else {
      n := TameRunsAll(m, root, own, Turns(root), [], None);
    }
    var m1 := Steps(n, m);
    assert m1.log == Told(ps);
    assert Recorded(m1.log) == ps;
    StepsAdd(n, 1, m);
    assert Steps(1, m1) == Step(m1);
    assert m1.ready[1..] == [];
    n := n + 1;
  }

  ghost predicate Grew(m: Tracer, m2: Tracer) {
    m2.root == m.root && |m.log| <= |m2.log| && m2.log[..|m.log|] == m.log
  }

  lemma StepGrows(m: Tracer)
    ensures Grew(m, Step(m))
  {
  }

  lemma GrewTwice(m: Tracer, m1: Tracer, m2: Tracer)
    requires Grew(m, m1) && Grew(m1, m2)
    ensures Grew(m, m2)
  {
    assert m2.log[..|m.log|] == m2.log[..|m1.log|][..|m.log|];
  }

  lemma {:induction false} LogGrows(n: nat, m: Tracer)
    ensures Grew(m, Steps(n, m))
    ensures m.ready == [] ==> Steps(n, m) == m
    decreases n
  {
    if n > 0 {
      StepGrows(m);
      LogGrows(n - 1, Step(m));
      GrewTwice(m, Step(m), Steps(n - 1, Step(m)));
    }
  }

  // ---- Otherwise some path is wrong -----------------------------------------------------------------

  /** `p` is `own` or continues it. */
  ghost predicate Extends(p: string, own: string) {
    |own| <= |p| && p[..|own|] == own
  }

  lemma ExtendsTrans(p: string, q: string, r: string)
    requires Extends(p, q) && Extends(q, r)
    ensures Extends(p, r)
  {
    assert p[..|r|] == p[..|q|][..|r|];
  }

  lemma TurnsCover(a: Agent, i: nat)
    requires a.Composite? && WellFormed(a) && i < |a.children|
    ensures i in Turns(a)
  {
    assert UpTo(|a.children|)[i] == i;
  }

  ghost predicate SomeSuspends(a: Agent, js: seq<nat>)
    requires ChildIndices(a, js)
  {
    exists i :: 0 <= i < |js| && Suspends(a.children[js[i]].agent)
  }

  ghost predicate Stopped(m: Tracer, m2: Tracer, own: string) {
    && m2.root == m.root && |m2.ready| >= |m.ready| - 1 >= 0 && m2.ready[..|m.ready| - 1] == m.ready[1..]
    && |m2.stack| > 0 && Extends(Top(m2.root, m2.stack).path, own)
  }

  /** A task with a gather in it suspends there, and leaves the agent it is in on the stack. */
  lemma {:induction false} ReachesGather(m: Tracer, a: Agent, own: string, rest: seq<Work>, joins: Option<nat>)
    returns (k: nat)
    requires WellFormed(a) && Suspends(a)
    requires At(m, [Call(a, own)] + rest, joins) && Callee(m.root, m.stack, a) == own
    ensures Stopped(m, Steps(k, m), own)
    decreases a, 1, 0
  {
    if a.kind.Fan? {
      GatherStops(m, a, own, rest, joins);
      k := 2;
    } else {
      CallStep(m, a, own, rest, joins);
      var m1 := Step(m);
      assert m1.ready[1..] == m.ready[1..];
      SuspendingTurn(a);
      k := ReachesGatherIn(m1, a, own, Turns(a), [Return] + rest, joins);
      assert Steps(k + 1, m) == Steps(k, m1);
      k := k + 1;
    }
  }

  lemma SuspendingTurn(a: Agent)
    requires WellFormed(a) && Suspends(a) && a.Composite? && !a.kind.Fan?
    ensures SomeSuspends(a, Turns(a))
  {
    var j :| 0 <= j < |a.children| && Suspends(a.children[j].agent);
    TurnsCover(a, j);
    var i :| 0 <= i < |Turns(a)| && Turns(a)[i] == j;
  }

  lemma GatherStops(m: Tracer, a: Agent, own: string, rest: seq<Work>, joins: Option<nat>)
    requires a.Composite? && a.kind.Fan? && |a.children| > 0
    requires At(m, [Call(a, own)] + rest, joins) && Callee(m.root, m.stack, a) == own
    ensures Stopped(m, Steps(2, m), own)
  {
    CallStep(m, a, own, rest, joins);
    var m1 := Step(m);
    OneMoreStep(1, m);
    OneMoreStep(0, m);
    assert m1.ready[1..] == m.ready[1..];
    assert m1.ready[0] == Resume(Task([Fork(a, own)] + ([Return] + rest), joins));
    var m2 := Step(m1);
    assert m2.ready == m1.ready[1..] + Forks(a, own, 0, m1.next);
  }

  lemma StoppedBelow(m: Tracer, m2: Tracer, p: string, own: string)
    requires Stopped(m, m2, p) && Extends(p, own)
    ensures Stopped(m, m2, own)
  {
    ExtendsTrans(Top(m2.root, m2.stack).path, p, own);
  }

  lemma StoppedLater(m: Tracer, m1: Tracer, m2: Tracer, own: string, todo: seq<Work>, joins: Option<nat>,
                     ps: seq<Node>)
    requires |m.ready| > 0 && m1 == GoesOn(m, todo, joins, ps) && Stopped(m1, m2, own)
    ensures Stopped(m, m2, own)
  {
    assert m1.ready[1..] == m.ready[1..];
  }

  lemma LaterSuspends(a: Agent, js: seq<nat>)
    requires ChildIndices(a, js) && SomeSuspends(a, js) && !Suspends(a.children[js[0]].agent)
    ensures SomeSuspends(a, js[1..])
  {
    var i :| 0 <= i < |js| && Suspends(a.children[js[i]].agent);
    assert js[1..][i - 1] == js[i];
  }

  lemma {:induction false} ReachesGatherIn(m: Tracer, a: Agent, own: string, js: seq<nat>, rest: seq<Work>,
                                           joins: Option<nat>)
    returns (k: nat)
    requires WellFormed(a) && ChildIndices(a, js) && SomeSuspends(a, js) && Top(m.root, m.stack) == Frame(a, own)
    requires At(m, CallsOf(a, own, js) + rest, joins)
    ensures Stopped(m, Steps(k, m), own)
    decreases a, 0, |js|
  {
    var c, p := a.children[js[0]].agent, PathOf(a, own, js[0]);
    var todo := CallsOf(a, own, js[1..]) + rest;
    FirstCall(a, own, js, rest);
    if Suspends(c) {
      k := ReachesGather(m, c, p, todo, joins);
      StoppedBelow(m, Steps(k, m), p, own);
    } else {
      var k1 := QuietRuns(m, c, p, todo, joins);
      var m1 := Steps(k1, m);
      LaterSuspends(a, js);
      var k2 := ReachesGatherIn(m1, a, own, js[1..], rest, joins);
      StepsAdd(k1, k2, m);
      StoppedLater(m, m1, Steps(k2, m1), own, todo, joins, Planned(c, p));
      k := k1 + k2;
    }
  }

  /** A path below `top`, which continues the path of one child, is not the path of another. */
  lemma OtherPath(path: string, one: string, other: string, top: string, x: string)
    requires Extends(top, path + "." + one) && '.' !in other
    ensures top + "." + x != path + "." + other
  {
    var wrong, right := top + "." + x, path + "." + other;
    assert wrong[|top|] == '.' && |top| >= |path| + 1;
    if |top| < |right| {
      assert right[|top|] == other[|top| - |path| - 1] && other[|top| - |path| - 1] in other;
    }
  }

  ghost predicate Unfaithful(k: nat, m: Tracer) {
    !Faithful(Steps(k, m).log)
  }

  lemma UnfaithfulLater(j: nat, k: nat, m: Tracer)
    requires Unfaithful(k, Steps(j, m))
    ensures Unfaithful(j + k, m)
  {
    StepsAdd(j, k, m);
  }

  lemma {:induction false} WildCall(m: Tracer, a: Agent, own: string, rest: seq<Work>, joins: Option<nat>)
    returns (k: nat)
    requires WellFormed(a) && PlainNames(a) && !Tame(a) && Idle(m, joins)
    requires At(m, [Call(a, own)] + rest, joins) && Callee(m.root, m.stack, a) == own
    ensures Unfaithful(k, m)
    decreases a, 2, 0
  {
    var m1 := CallGoes(m, a, own, rest, joins);
    assert Steps(1, m) == m1;
    k := WildBody(m1, a, own, [Return] + rest, joins);
    UnfaithfulLater(1, k, m);
    k := 1 + k;
  }

  lemma {:induction false} WildBody(m: Tracer, a: Agent, own: string, rest: seq<Work>, joins: Option<nat>)
    returns (k: nat)
    requires WellFormed(a) && PlainNames(a) && !Tame(a) && Idle(m, joins) && a.Composite?
    requires At(m, Body(a, own) + rest, joins) && Top(m.root, m.stack) == Frame(a, own)
    ensures Unfaithful(k, m)
    decreases a, 1, 1
  {
    if a.kind.Fan? {
      k := WildFan(m, a, own, rest, joins);
    } else {
      var j, i := WildTurn(a);
      k := WildStages(m, a, own, Turns(a), i, rest, joins);
    }
  }

  lemma WildTurn(a: Agent) returns (j: nat, i: nat)
    requires WellFormed(a) && !Tame(a) && a.Composite? && !a.kind.Fan?
    ensures i < |Turns(a)| && Turns(a)[i] == j < |a.children| && !Tame(a.children[j].agent)
  {
    j :| 0 <= j < |a.children| && !Tame(a.children[j].agent);
    TurnsCover(a, j);
    i :| 0 <= i < |Turns(a)| && Turns(a)[i] == j;
  }

  lemma {:induction false} WildFan(m: Tracer, a: Agent, own: string, rest: seq<Work>, joins: Option<nat>)
    returns (k: nat)
    requires WellFormed(a) && PlainNames(a) && !Tame(a) && Idle(m, joins) && a.Composite? && a.kind.Fan?
    requires At(m, [Fork(a, own)] + rest, joins) && Top(m.root, m.stack) == Frame(a, own)
    ensures Unfaithful(k, m)
    decreases a, 1, 0
  {
    var k1, m1 := GatherStarts(m, a, own, rest, joins);
    var j := SomeSpoils(a);
    k := WildGather(m1, a, own, 0, j, m.next);
    UnfaithfulLater(k1, k, m);
    k := k1 + k;
  }

  lemma SomeSpoils(a: Agent) returns (j: nat)
    requires a.Composite? && a.kind.Fan? && !Tame(a)
    ensures j < |a.children| && Spoils(a, j)
  {
    if i :| 0 <= i < |a.children| && !Tame(a.children[i].agent) {
      j := i;
    } else {
      j :| 0 <= j < |a.children| - 1 && Suspends(a.children[j].agent);
    }
  }

  lemma {:induction false} WildStages(m: Tracer, a: Agent, own: string, js: seq<nat>, i: nat, rest: seq<Work>,
                                      joins: Option<nat>) returns (k: nat)
    requires WellFormed(a) && PlainNames(a) && ChildIndices(a, js) && i < |js| && !Tame(a.children[js[i]].agent)
    requires Idle(m, joins) && At(m, CallsOf(a, own, js) + rest, joins) && Top(m.root, m.stack) == Frame(a, own)
    ensures Unfaithful(k, m)
    decreases a, 0, i
  {
    var c, p := a.children[js[0]].agent, PathOf(a, own, js[0]);
    var todo := CallsOf(a, own, js[1..]) + rest;
    FirstCall(a, own, js, rest);
    if !Tame(c) {
      k := WildCall(m, c, p, todo, joins);
    } else {
      var k1 := TameRuns(m, c, p, todo, joins);
      assert js[1..][i - 1] == js[i];
      k := WildStages(Steps(k1, m), a, own, js[1..], i - 1, rest, joins);
      UnfaithfulLater(k1, k, m);
      k := k1 + k;
    }
  }

  /** The gathered tasks from child `i` on, those before without a gather; child `j` spoils the trace. */
  lemma {:induction false} WildGather(m: Tracer, a: Agent, own: string, i: nat, j: nat, g: nat) returns (k: nat)
    requires WellFormed(a) && PlainNames(a) && a.Composite? && a.kind.Fan? && FreshId(m)
    requires i <= j < |a.children| && Spoils(a, j)
    requires m.ready == Forks(a, own, i, g) + News(g, i)
    requires g in m.waiting && m.waiting[g].left == |a.children| && Top(m.root, m.stack) == Frame(a, own)
    ensures Unfaithful(k, m)
    decreases a, 0, |a.children| - i
  {
    var c, n := a.children[i].agent, |a.children|;
    if i < n - 1 && Suspends(c) {
      k := TooEarly(m, a, own, i, g, News(g, i));
    } else if i < n - 1 {
      CalmIsTame(c);
      var k1, m1 := QuietTaskEnds(m, a, own, i, g, News(g, i));
      assert News(g, i) + [Finished(g)] == News(g, i + 1);
      k := WildGather(m1, a, own, i + 1, j, g);
      UnfaithfulLater(k1, k, m);
      k := k1 + k;
    } else {
      LastIsIdle(m, a, own, g);
      k := WildCall(m, c, PathOf(a, own, i), [], Some(g));
    }
  }

  /** Child `j` of a gather makes the whole wild. */
  ghost predicate Spoils(a: Agent, j: nat)
    requires a.Composite? && j < |a.children|
  {
    !Tame(a.children[j].agent) || (j < |a.children| - 1 && Suspends(a.children[j].agent))
  }

  /** The sibling after a suspended task starts while that task's agent is on the stack. */
  lemma TooEarly(m: Tracer, a: Agent, own: string, i: nat, g: nat, tail: seq<Item>) returns (k: nat)
    requires WellFormed(a) && PlainNames(a) && a.Composite? && i + 1 < |a.children| && Suspends(a.children[i].agent)
    requires m.ready == Forks(a, own, i, g) + tail && Top(m.root, m.stack) == Frame(a, own)
    ensures Unfaithful(k, m)
  {
    var c, p := a.children[i].agent, PathOf(a, own, i);
    var d, q := a.children[i + 1].agent, PathOf(a, own, i + 1);
    assert [Call(c, p)] + [] == [Call(c, p)];
    var k1 := ReachesGather(m, c, p, [], Some(g));
    var m1 := Steps(k1, m);
    assert m.ready[1] == Resume(Task([Call(d, q)], Some(g)));
    assert m1.ready[0] == m1.ready[..|m.ready| - 1][0] == m.ready[1..][0] == m.ready[1];
    var top := Top(m1.root, m1.stack);
    var x := Hint(if top.agent.Composite? then top.agent.children else [], d);
    OtherPath(own, Hint(a.children, c), Hint(a.children, d), top.path, x);
    var log := Step(m1).log;
    assert log == m1.log + [Event(NodeOf(d, top.path + "." + x), q)];
    assert log[|m1.log|].node.path != log[|m1.log|].own;
    StepsAdd(k1, 1, m);
    assert Steps(1, m1) == Step(m1);
    k := k1 + 1;
  }

  /** EXACTLY WHEN. In every stage of the trace every invocation is recorded under the path that it
      reports at run time, if and only if of children that are gathered together only the last one
      gathers again. */
  lemma FaithfulIffTame(root: Agent)
    requires WellFormed(root) && root.Composite? && PlainNames(root)
    ensures (forall n: nat :: Faithful(Steps(n, Start(root)).log)) <==> Tame(root)
  {
    if Tame(root) {
      var k := TameTrace(root);
      forall n: nat
        ensures Faithful(Steps(n, Start(root)).log)
      {
        SoFarFaithful(n, k, Start(root));
      }
    } else {
      assert Body(root, root.name) + [] == Body(root, root.name);
      var k := WildBody(Start(root), root, root.name, [], None);
      assert !Faithful(Steps(k, Start(root)).log);
    }
  }

  lemma SoFarFaithful(n: nat, k: nat, m: Tracer)
    requires Steps(k, m).ready == [] && Faithful(Steps(k, m).log)
    ensures Faithful(Steps(n, m).log)
  {
    if n <= k {
      StepsAdd(n, k - n, m);
      LogGrows(k - n, Steps(n, m));
      var early, late := Steps(n, m).log, Steps(k, m).log;
      forall i | 0 <= i < |early|
        ensures early[i].node.path == early[i].own
      {
        assert early[i] == late[..|early|][i] == late[i];
      }
    } else {
      StepsAdd(k, n - k, m);
      LogGrows(n - k, Steps(k, m));
    }
  }
}
