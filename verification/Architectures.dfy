/** Agent architectures, the symbolic trace of `build()` and the evaluation of `invoke()`. */
module Architectures {
  import opened Options

  /** A class is a number; `h(c, d)` says that an instance of `c` is an instance of `d`. */
  type Class = nat
  type Key = nat
  type Hierarchy = (Class, Class) -> bool

  ghost predicate Preorder(h: Hierarchy) {
    && (forall c :: h(c, c))
    && (forall c, d, e :: h(c, d) && h(d, e) ==> h(c, e))
  }

  /** For a `Route` the first child is the selector; the others are the branches, each with its
      key. `adapted` says that a `branch_input` function is installed. */
  datatype Kind =
    | Sequence
    | LoopOf(n: nat)
    | Fan(combined: Class)
    | Route(adapted: bool)

  datatype Child = Child(attr: string, key: Key, agent: Agent)

  /** `id` is the object identity of the agent. */
  datatype Agent =
    | Leaf(id: nat, name: string, input: Class, output: Class)
    | Composite(id: nat, name: string, input: Class, output: Class, kind: Kind, children: seq<Child>)

  /** What the four constructors check or arrange. */
  ghost predicate WellFormed(a: Agent) {
    a.Composite? ==>
      && |a.children| >= 1
      && (a.kind.LoopOf? ==> a.kind.n >= 1 && a.input == a.output)
      && (a.kind.Route? ==> |a.children| >= 2)
      && (a.kind.Route? ==>
            forall i, j :: 1 <= i < j < |a.children| ==> a.children[i].key != a.children[j].key)
      && (forall i :: 0 <= i < |a.children| ==> WellFormed(a.children[i].agent))
  }

  /** The first attribute under which `parent` holds the very object `id`. */
  function AttrOf(children: seq<Child>, id: nat): string {
    if |children| == 0 then ""
    else if children[0].agent.id == id then children[0].attr
    else AttrOf(children[1..], id)
  }

  /** How an agent is called below a parent with these children: the attribute, or its own name. */
  function Hint(children: seq<Child>, a: Agent): string {
    var attr := AttrOf(children, a.id);
    if attr == "" then a.name else attr
  }

  /** The path of child `i` of an agent whose path is `path`. */
  function PathOf(a: Agent, path: string, i: nat): string
    requires a.Composite? && i < |a.children|
  {
    path + "." + Hint(a.children, a.children[i].agent)
  }

  datatype Error = InputMismatch | OutputMismatch | SentinelBypass | RouterMiss | Crashed

  // ---- The symbolic trace -------------------------------------------------

  /** What the type checks see of the trace: `out` is the class of the symbolic value. The paths that
      are recorded along the way are the subject of `TracerPaths`. */
  datatype Trace = Traced(out: Class) | Failed(error: Error)

  /** `forward` invokes no child. */
  predicate Silent(a: Agent)
    requires a.Composite?
  {
    |a.children| == 0 || a.kind == LoopOf(0)
  }

  /** `Tracer.record`: one intercepted invocation of `a` on a value of class `x`. */
  function Record(h: Hierarchy, a: Agent, x: Class): Trace
    decreases a, 4
  {
    if !h(x, a.input) then Failed(InputMismatch)
    else if a.Leaf? then Traced(a.output)
    else
      match ForwardTrace(h, a)
      case Failed(e) => Failed(e)
      case Traced(out) =>
        if !h(out, a.output) then Failed(OutputMismatch)
        else if Silent(a) then Failed(SentinelBypass)
        else Traced(a.output)
  }

  /** `forward` under the tracer; its argument is a sentinel of the declared input class. */
  function ForwardTrace(h: Hierarchy, a: Agent): Trace
    requires a.Composite?
    decreases a, 3
  {
    match a.kind
    case Sequence => StagesTrace(h, a, 0, a.input)
    case LoopOf(n) => LoopTrace(h, a, n, a.input)
    case Fan(combined) => AllTrace(h, a, 0, combined)
    case Route(_) =>
      if |a.children| < 2 then Failed(Crashed)
      else AllTrace(h, a, 0, a.children[1].agent.output)
  }

  /** Stages `i ..`, each fed with the symbolic output of the one before. */
  function StagesTrace(h: Hierarchy, a: Agent, i: nat, x: Class): Trace
    requires a.Composite? && i <= |a.children|
    decreases a, 1, |a.children| - i
  {
    if i == |a.children| then Traced(x)
    else
      match Record(h, a.children[i].agent, x)
      case Failed(e) => Failed(e)
      case Traced(out) => StagesTrace(h, a, i + 1, out)
  }

  function LoopTrace(h: Hierarchy, a: Agent, n: nat, x: Class): Trace
    requires a.Composite?
    decreases a, 2, n
  {
    if n == 0 then Traced(x)
    else
      match StagesTrace(h, a, 0, x)
      case Failed(e) => Failed(e)
      case Traced(out) => LoopTrace(h, a, n - 1, out)
  }

  /** The class of the value that child `i` receives during the trace. */
  function TracePayload(a: Agent, i: nat): Class
    requires a.Composite? && i < |a.children|
  {
    if a.kind.Route? && a.kind.adapted && i > 0 then a.children[i].agent.input else a.input
  }

  /** Every child `i ..` on the shared input; `out` is the class of what `forward` then returns. */
  function AllTrace(h: Hierarchy, a: Agent, i: nat, out: Class): Trace
    requires a.Composite? && i <= |a.children|
    decreases a, 1, |a.children| - i
  {
    if i == |a.children| then Traced(out)
    else
      match Record(h, a.children[i].agent, TracePayload(a, i))
      case Failed(e) => Failed(e)
      case Traced(_) => AllTrace(h, a, i + 1, out)
  }

  /** `build()` of a root with children: the trace, then the checks on the root itself. */
  function Build(h: Hierarchy, root: Agent): Trace {
    if root.Leaf? then Traced(root.output)
    else
      match ForwardTrace(h, root)
      case Failed(e) => Failed(e)
      case Traced(out) =>
        if !h(out, root.output) then Failed(OutputMismatch)
        else if Silent(root) then Failed(SentinelBypass)
        else Traced(root.output)
  }

  // ---- Evaluation ---------------------------------------------------------

  /** `key` is what a Router reads from a value through its key field. */
  datatype Value = Value(cls: Class, key: Key, payload: nat)

  datatype Reply = Answer(value: Value) | Crash

  /** Everything the architecture does not fix: what the k-th consulted leaf, `combine` or
      `branch_input` answers. */
  datatype Oracle = Oracle(
    leaf: (nat, Agent, Value) -> Reply,
    combine: (nat, Agent, seq<Value>) -> Reply,
    adapt: (nat, Agent, Value, Value, nat) -> Value)

  /** Leaves return instances of their declared output, `combine` of its result class, and
      `branch_input` of the chosen branch's input. */
  ghost predicate Respects(h: Hierarchy, o: Oracle) {
    && (forall k: nat, a: Agent, x: Value :: o.leaf(k, a, x).Answer? && a.Leaf? ==>
          h(o.leaf(k, a, x).value.cls, a.output))
    && (forall k: nat, a: Agent, xs: seq<Value> :: o.combine(k, a, xs).Answer? && a.Composite? && a.kind.Fan? ==>
          h(o.combine(k, a, xs).value.cls, a.kind.combined))
    && (forall k: nat, a: Agent, x: Value, y: Value, i: nat :: a.Composite? && i < |a.children| ==>
          h(o.adapt(k, a, x, y, i).cls, a.children[i].agent.input))
  }

  datatype Outcome = Ok(value: Value) | Err(error: Error)

  /** `raised` collects the errors raised by every invocation of the run, also those of gathered
      siblings; `visited` the paths of every invocation; `clock` counts consultations. */
  datatype Run = Run(outcome: Outcome, raised: seq<Error>, visited: seq<string>, clock: nat)

  function Bad(e: Error, visited: seq<string>, clock: nat): Run {
    Run(Err(e), [e], visited, clock)
  }

  function Prefixed(raised: seq<Error>, visited: seq<string>, r: Run): Run {
    r.(raised := raised + r.raised, visited := visited + r.visited)
  }

  function Invoke(h: Hierarchy, o: Oracle, k: nat, a: Agent, path: string, x: Value): Run
    decreases a, 4
  {
    if !h(x.cls, a.input) then Bad(InputMismatch, [path], k)
    else
      var r :=
        if a.Leaf? then
          match o.leaf(k, a, x)
          case Crash => Bad(Crashed, [], k + 1)
          case Answer(v) => Run(Ok(v), [], [], k + 1)
        else Forward(h, o, k, a, path, x);
      if r.outcome.Ok? && !h(r.outcome.value.cls, a.output)
      then Run(Err(OutputMismatch), r.raised + [OutputMismatch], [path] + r.visited, r.clock)
      else Prefixed([], [path], r)
  }

  function Forward(h: Hierarchy, o: Oracle, k: nat, a: Agent, path: string, x: Value): Run
    requires a.Composite?
    decreases a, 3
  {
    match a.kind
    case Sequence => Stages(h, o, k, a, path, 0, x)
    case LoopOf(n) => Passes(h, o, k, a, path, n, x)
    case Fan(_) =>
      var g := Gather(h, o, k, a, path, 0, x, []);
      if g.error.Some? then Run(Err(g.error.value), g.raised, g.visited, g.clock)
      else (match o.combine(g.clock, a, g.values)
            case Crash => Prefixed(g.raised, g.visited, Bad(Crashed, [], g.clock + 1))
            case Answer(v) => Run(Ok(v), g.raised, g.visited, g.clock + 1))
    case Route(_) =>
      if |a.children| == 0 then Bad(RouterMiss, [], k)
      else
        var r := Invoke(h, o, k, a.children[0].agent, PathOf(a, path, 0), x);
        if r.outcome.Err? then r
        else
          var i := Branch(a.children, r.outcome.value.key, 1);
          if i == |a.children| then Prefixed(r.raised, r.visited, Bad(RouterMiss, [], r.clock))
          else
            var payload := if a.kind.adapted then o.adapt(r.clock, a, x, r.outcome.value, i) else x;
            Prefixed(r.raised, r.visited, Invoke(h, o, r.clock, a.children[i].agent, PathOf(a, path, i), payload))
  }

  /** The position of the branch with this key, or the number of children. */
  function Branch(children: seq<Child>, key: Key, i: nat): (r: nat)
    requires i <= |children| || |children| == 0
    ensures |children| > 0 ==> i <= r <= |children|
    ensures |children| > 0 && r < |children| ==> children[r].key == key
    decreases |children| - i
  {
    if i >= |children| then |children|
    else if children[i].key == key then i
    else Branch(children, key, i + 1)
  }

  function Stages(h: Hierarchy, o: Oracle, k: nat, a: Agent, path: string, i: nat, x: Value): Run
    requires a.Composite? && i <= |a.children|
    decreases a, 1, |a.children| - i
  {
    if i == |a.children| then Run(Ok(x), [], [], k)
    else
      var r := Invoke(h, o, k, a.children[i].agent, PathOf(a, path, i), x);
      if r.outcome.Err? then r
      else Prefixed(r.raised, r.visited, Stages(h, o, r.clock, a, path, i + 1, r.outcome.value))
  }

  function Passes(h: Hierarchy, o: Oracle, k: nat, a: Agent, path: string, n: nat, x: Value): Run
    requires a.Composite?
    decreases a, 2, n
  {
    if n == 0 then Run(Ok(x), [], [], k)
    else
      var r := Stages(h, o, k, a, path, 0, x);
      if r.outcome.Err? then r
      else Prefixed(r.raised, r.visited, Passes(h, o, r.clock, a, path, n - 1, r.outcome.value))
  }

  datatype Gathered = Gathered(
    values: seq<Value>, error: Option<Error>, raised: seq<Error>, visited: seq<string>, clock: nat)

  /** `asyncio.gather` over children `i ..`: all of them run, a failure is reported at the end. */
  function Gather(h: Hierarchy, o: Oracle, k: nat, a: Agent, path: string, i: nat, x: Value,
                  values: seq<Value>): Gathered
    requires a.Composite? && i <= |a.children|
    decreases a, 1, |a.children| - i
  {
    if i == |a.children| then Gathered(values, None, [], [], k)
    else
      var r := Invoke(h, o, k, a.children[i].agent, PathOf(a, path, i), x);
      var g := Gather(h, o, r.clock, a, path, i + 1, x, if r.outcome.Ok? then values + [r.outcome.value] else values);
      g.(error := if r.outcome.Err? then Some(r.outcome.error) else g.error,
         raised := r.raised + g.raised,
         visited := r.visited + g.visited)
  }

  ghost predicate NoMismatch(raised: seq<Error>) {
    InputMismatch !in raised && OutputMismatch !in raised
  }
}
