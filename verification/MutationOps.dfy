/** In-place mutation ops over a tree of agents: eleven primitive edits and the compound op that
    applies several or none. */
module MutationOps {
  import opened Options

  type Example = int

  datatype Config = Config(backend: string, model: string, host: Option<string>, temperature: real, rest: int)

  datatype Fields = Fields(
    role: string, task: string, rules: seq<string>, examples: seq<Example>, config: Option<Config>)

  datatype Error = NoSuchChild | BadValue | UndoBeforeApply

  // ---- Agents and paths ------------------------------------------------------------

  /** An agent: the fields ops overwrite, and its children, which no op touches. Two attributes, of
      one parent or of several, may hold the same child. */
  class Agent {
    const children: map<string, Agent>
    var fields: Fields

    constructor (children: map<string, Agent>, fields: Fields)
      ensures this.children == children && this.fields == fields
    {
      this.children, this.fields := children, fields;
    }
  }

  /** `s.split(".")`. */
  function Split(s: string): (parts: seq<string>)
    ensures |parts| >= 1
  {
    if |s| == 0 then [""]
    else
      var init := Split(s[..|s| - 1]);
      if s[|s| - 1] == '.' then init + [""]
      else init[..|init| - 1] + [init[|init| - 1] + [s[|s| - 1]]]
  }

  function Walk(root: Agent, segments: seq<string>): Option<Agent> {
    if |segments| == 0 then Some(root)
    else
      var up := Walk(root, segments[..|segments| - 1]);
      var name := segments[|segments| - 1];
      if up.Some? && name in up.value.children then Some(up.value.children[name]) else None
  }

  function Resolve(root: Agent, path: string): Option<Agent> {
    if path == "" then Some(root) else Walk(root, Split(path))
  }

  /** The fields of every agent around; all that a root can reach are in it (`Closed`). */
  type Heap = map<Agent, Fields>

  ghost predicate Closed(agents: set<Agent>) {
    forall a, name :: a in agents && name in a.children ==> a.children[name] in agents
  }

  lemma {:induction false} WalkStaysInside(agents: set<Agent>, root: Agent, segments: seq<string>)
    requires Closed(agents) && root in agents
    ensures Walk(root, segments).Some? ==> Walk(root, segments).value in agents
  {
    if |segments| > 0 {
      WalkStaysInside(agents, root, segments[..|segments| - 1]);
    }
  }

  method ResolvePath(root: Agent, path: string) returns (target: Option<Agent>)
    ensures target == Resolve(root, path)
  {
    if path == "" {
      return Some(root);
    }
    var segments := Split(path);
    var current := root;
    for i := 0 to |segments|
      invariant Walk(root, segments[..i]) == Some(current)
    {
      assert segments[..i + 1][..i] == segments[..i];
      if segments[i] !in current.children {
        LostForGood(root, segments, i + 1);
        return None;
      }
      current := current.children[segments[i]];
    }
    assert segments[..|segments|] == segments;
    return Some(current);
  }

  lemma {:induction false} LostForGood(root: Agent, segments: seq<string>, i: nat)
    requires i <= |segments| && Walk(root, segments[..i]).None?
    ensures Walk(root, segments).None?
  {
    if i < |segments| {
      assert segments[..|segments| - 1][..i] == segments[..i];
      LostForGood(root, segments[..|segments| - 1], i);
    } else {
      assert segments[..i] == segments;
    }
  }

  // ---- Primitive edits ---------------------------------------------------------------

  /** `AppendExample(None)`: the value given is not an example. */
  datatype Action =
    | AppendRule(rule: string)
    | ReplaceRule(index: int, rule: string)
    | DropRule(index: int)
    | EditTask(task: string)
    | TweakRole(role: string)
    | AppendExample(example: Option<Example>)
    | DropExample(index: int)
    | SetTemperature(temperature: real)
    | SetModel(model: string)
    | SetBackend(backend: string, host: Option<string>)
    | SetConfiguration(config: Config)

  predicate InRange(index: int, n: int) {
    -n <= index < n
  }

  /** The list position a Python index names; negative ones count from the end. */
  function Position(index: int, n: nat): (p: nat)
    requires InRange(index, n)
    ensures p < n
  {
    if index < 0 then n + index else index
  }

  function Without<T>(s: seq<T>, p: nat): seq<T>
    requires p < |s|
  {
    s[..p] + s[p + 1..]
  }

  /** `None`: the edit is refused with a ValueError. */
  function Edit(a: Action, f: Fields): Option<Fields> {
    match a
    case AppendRule(rule) => Some(f.(rules := f.rules + [rule]))
    case ReplaceRule(index, rule) =>
      if InRange(index, |f.rules|) then Some(f.(rules := f.rules[Position(index, |f.rules|) := rule])) else None
    case DropRule(index) =>
      if InRange(index, |f.rules|) then Some(f.(rules := Without(f.rules, Position(index, |f.rules|)))) else None
    case EditTask(task) => Some(f.(task := task))
    case TweakRole(role) => Some(f.(role := role))
    case AppendExample(example) =>
      if example.Some? then Some(f.(examples := f.examples + [example.value])) else None
    case DropExample(index) =>
      if InRange(index, |f.examples|) then Some(f.(examples := Without(f.examples, Position(index, |f.examples|))))
      else None
    case SetTemperature(t) =>
      if f.config.Some? then Some(f.(config := Some(f.config.value.(temperature := t)))) else None
    case SetModel(model) =>
      if f.config.Some? then Some(f.(config := Some(f.config.value.(model := model)))) else None
    case SetBackend(backend, host) =>
      if f.config.Some? then Some(f.(config := Some(f.config.value.(backend := backend, host := host)))) else None
    case SetConfiguration(config) =>
      if f.config.Some? then Some(f.(config := Some(config))) else None
  }

  // ---- What an edit writes -------------------------------------------------------------

  /** A Python index names position `p` of a list of length `n`, from the front or from the back. */
  predicate Names(index: int, n: nat, p: int) {
    0 <= p < n && (index == p || index == p - n)
  }

  ghost predicate Appended<T(!new)>(s: seq<T>, t: seq<T>, x: T) {
    |t| == |s| + 1 && t[..|s|] == s && t[|s|] == x
  }

  ghost predicate Replaced<T(!new)>(s: seq<T>, t: seq<T>, index: int, x: T) {
    |t| == |s| && forall p :: 0 <= p < |s| ==> t[p] == if Names(index, |s|, p) then x else s[p]
  }

  ghost predicate Dropped<T(!new)>(s: seq<T>, t: seq<T>, index: int) {
    |t| + 1 == |s| && forall p :: Names(index, |s|, p) ==> s == t[..p] + [s[p]] + t[p..]
  }

  /** From `f` to `g` the edit wrote what it is for, and nothing else. */
  ghost predicate Wrote(a: Action, f: Fields, g: Fields) {
    && (a.AppendRule? || a.ReplaceRule? || a.DropRule? || g.rules == f.rules)
    && (a.EditTask? || g.task == f.task)
    && (a.TweakRole? || g.role == f.role)
    && (a.AppendExample? || a.DropExample? || g.examples == f.examples)
    && (a.SetTemperature? || a.SetModel? || a.SetBackend? || a.SetConfiguration? || g.config == f.config)
    && match a
       case AppendRule(rule) => Appended(f.rules, g.rules, rule)
       case ReplaceRule(index, rule) => Replaced(f.rules, g.rules, index, rule)
       case DropRule(index) => Dropped(f.rules, g.rules, index)
       case EditTask(task) => g.task == task
       case TweakRole(role) => g.role == role
       case AppendExample(example) => example.Some? && Appended(f.examples, g.examples, example.value)
       case DropExample(index) => Dropped(f.examples, g.examples, index)
       case SetConfiguration(config) => g.config == Some(config)
       case _ => f.config.Some? && g.config.Some? && Configured(a, f.config.value, g.config.value)
  }

  /** One part of the configuration is set, every other part stays. */
  ghost predicate Configured(a: Action, c: Config, d: Config) {
    && d.rest == c.rest
    && d.temperature == (if a.SetTemperature? then a.temperature else c.temperature)
    && d.model == (if a.SetModel? then a.model else c.model)
    && d.backend == (if a.SetBackend? then a.backend else c.backend)
    && d.host == (if a.SetBackend? then a.host else c.host)
  }

  /** The edit makes no sense on these fields. */
  ghost predicate Refused(a: Action, f: Fields) {
    match a
    case ReplaceRule(index, _) => forall p :: !Names(index, |f.rules|, p)
    case DropRule(index) => forall p :: !Names(index, |f.rules|, p)
    case DropExample(index) => forall p :: !Names(index, |f.examples|, p)
    case AppendExample(example) => example.None?
    case SetTemperature(_) => f.config.None?
    case SetModel(_) => f.config.None?
    case SetBackend(_, _) => f.config.None?
    case SetConfiguration(_) => f.config.None?
    case _ => false
  }

  lemma PositionNames(index: int, n: nat)
    requires InRange(index, n)
    ensures forall p :: Names(index, n, p) <==> p == Position(index, n)
  {
  }

  lemma OutOfRange(index: int, n: nat)
    ensures !InRange(index, n) <==> forall p :: !Names(index, n, p)
  {
    if InRange(index, n) {
      assert Names(index, n, Position(index, n));
    }
  }

  lemma DroppedAt<T(!new)>(s: seq<T>, index: int)
    requires InRange(index, |s|)
    ensures Dropped(s, Without(s, Position(index, |s|)), index)
  {
    var p := Position(index, |s|);
    PositionNames(index, |s|);
    assert s == Without(s, p)[..p] + [s[p]] + Without(s, p)[p..];
  }

  /** WHAT AN EDIT DOES: it is refused exactly when it makes no sense, and else writes what it is for. */
  lemma EditWrites(a: Action, f: Fields)
    ensures Edit(a, f).None? <==> Refused(a, f)
    ensures Edit(a, f).Some? ==> Wrote(a, f, Edit(a, f).value)
  {
    match a {
      case ReplaceRule(index, rule) => OutOfRange(index, |f.rules|);
      case DropRule(index) =>
        OutOfRange(index, |f.rules|);
        if InRange(index, |f.rules|) {
          DroppedAt(f.rules, index);
        }
      case DropExample(index) =>
        OutOfRange(index, |f.examples|);
        if InRange(index, |f.examples|) {
          DroppedAt(f.examples, index);
        }
      case _ =>
    }
  }

  /** `Wrote` leaves no choice. */
  lemma WroteIsExact(a: Action, f: Fields, g: Fields, g': Fields)
    requires Wrote(a, f, g) && Wrote(a, f, g') && !Refused(a, f)
    ensures g == g'
  {
    match a {
      case AppendRule(_) => assert g.rules == g.rules[..|f.rules|] + [g.rules[|f.rules|]] == g'.rules;
      case AppendExample(_) =>
        assert g.examples == g.examples[..|f.examples|] + [g.examples[|f.examples|]] == g'.examples;
      case DropRule(index) =>
        var p :| Names(index, |f.rules|, p);
        SameRest(f.rules, g.rules, g'.rules, p);
      case DropExample(index) =>
        var p :| Names(index, |f.examples|, p);
        SameRest(f.examples, g.examples, g'.examples, p);
      case _ =>
    }
  }

  lemma SameRest<T(!new)>(s: seq<T>, t: seq<T>, u: seq<T>, p: nat)
    requires p < |s| && |t| == |u| == |s| - 1
    requires s == t[..p] + [s[p]] + t[p..] && s == u[..p] + [s[p]] + u[p..]
    ensures t == u
  {
    forall i | 0 <= i < |t|
      ensures t[i] == u[i]
    {
      assert s[if i < p then i else i + 1] == t[i];
      assert s[if i < p then i else i + 1] == u[i];
    }
  }

  /** What an op remembers: the one field it overwrites. */
  datatype Snapshot =
    | Nothing
    | Rules(rules: seq<string>)
    | Task(task: string)
    | Role(role: string)
    | Examples(examples: seq<Example>)
    | Configuration(config: Option<Config>)

  function Taken(a: Action, f: Fields): Snapshot {
    if a.AppendRule? || a.ReplaceRule? || a.DropRule? then Rules(f.rules)
    else if a.EditTask? then Task(f.task)
    else if a.TweakRole? then Role(f.role)
    else if a.AppendExample? || a.DropExample? then Examples(f.examples)
    else Configuration(f.config)
  }

  function PutBack(s: Snapshot, f: Fields): Fields {
    match s
    case Nothing => f
    case Rules(rules) => f.(rules := rules)
    case Task(task) => f.(task := task)
    case Role(role) => f.(role := role)
    case Examples(examples) => f.(examples := examples)
    case Configuration(config) => f.(config := config)
  }

  // ---- Ops -----------------------------------------------------------------------------

  datatype What = Primitive(path: string, action: Action) | Compound(ops: seq<Op>)

  datatype Memo = Memo(snapshot: Snapshot, appliedCount: nat)

  const FRESH: Memo := Memo(Nothing, 0)

  /** The private state of every op around; an op that is not listed is as it was created. */
  type Memory = map<Op, Memo>

  function Get(m: Memory, op: Op): Memo {
    if op in m then m[op] else FRESH
  }

  function Counted(m: Memory, op: Op, count: nat): Memory {
    m[op := Get(m, op).(appliedCount := count)]
  }

  function Remembering(m: Memory, op: Op, s: Snapshot): Memory {
    m[op := Get(m, op).(snapshot := s)]
  }

  datatype Outcome = Outcome(error: Option<Error>, heap: Heap, memory: Memory)

  /** No op is, at any depth, a part of itself. */
  ghost predicate Grounded(op: Op)
    decreases op.depth
  {
    op.what.Compound? ==>
      forall i :: 0 <= i < |op.what.ops| ==> op.what.ops[i].depth < op.depth && Grounded(op.what.ops[i])
  }

  /** The agent at `path` was edited; every other agent is as it was. */
  ghost predicate Edited(root: Agent, path: string, a: Action, h: Heap, h': Heap) {
    && h'.Keys == h.Keys
    && Resolve(root, path).Some? && Resolve(root, path).value in h
    && (forall x :: x in h && x != Resolve(root, path).value ==> h'[x] == h[x])
    && Wrote(a, h[Resolve(root, path).value], h'[Resolve(root, path).value])
  }

  /** Why an edit at `path` raises: a value that is no example, a path that leads nowhere, or an edit
      that makes no sense on the agent found, in this order. */
  ghost predicate Raises(root: Agent, path: string, a: Action, h: Heap, e: Error) {
    if a.AppendExample? && a.example.None? then e == BadValue
    else if Resolve(root, path).None? || Resolve(root, path).value !in h then e == NoSuchChild
    else e == BadValue && Refused(a, h[Resolve(root, path).value])
  }

  ghost function ApplyOne(op: Op, root: Agent, h: Heap, m: Memory): Outcome
    requires op.what.Primitive?
  {
    var target := Resolve(root, op.what.path);
    if op.what.action.AppendExample? && op.what.action.example.None? then Outcome(Some(BadValue), h, m)
    else if target.None? || target.value !in h then Outcome(Some(NoSuchChild), h, m)
    else
      var f := h[target.value];
      var f' := Edit(op.what.action, f);
      if f'.None? then Outcome(Some(BadValue), h, m)
      else Outcome(None, h[target.value := f'.value], Remembering(m, op, Taken(op.what.action, f)))
  }

  lemma ApplyOneEdits(op: Op, root: Agent, h: Heap, m: Memory)
    requires op.what.Primitive?
    ensures var o := ApplyOne(op, root, h, m);
      if o.error.None? then Edited(root, op.what.path, op.what.action, h, o.heap)
      else o.heap == h && Raises(root, op.what.path, op.what.action, h, o.error.value)
  {
    var target := Resolve(root, op.what.path);
    if target.Some? && target.value in h {
      EditWrites(op.what.action, h[target.value]);
    }
  }

  ghost function UndoOne(op: Op, root: Agent, h: Heap, m: Memory): Outcome
    requires op.what.Primitive?
  {
    var target := Resolve(root, op.what.path);
    var s := Get(m, op).snapshot;
    if s.Nothing? then Outcome(Some(UndoBeforeApply), h, m)
    else if target.None? || target.value !in h then Outcome(Some(NoSuchChild), h, m)
    else Outcome(None, h[target.value := PutBack(s, h[target.value])], Remembering(m, op, Nothing))
  }

  ghost function Apply(op: Op, root: Agent, h: Heap, m: Memory): Outcome
    requires Grounded(op)
    decreases op.depth, 1, 0
  {
    match op.what
    case Primitive(_, _) => ApplyOne(op, root, h, m)
    case Compound(ops) => ApplyUpTo(op, |ops|, root, h, m)
  }

  /** The first `k` parts in order; a part that fails has the applied ones undone, last first. */
  ghost function ApplyUpTo(op: Op, k: nat, root: Agent, h: Heap, m: Memory): Outcome
    requires Grounded(op) && op.what.Compound? && k <= |op.what.ops|
    decreases op.depth, 0, k
  {
    if k == 0 then Outcome(None, h, Counted(m, op, 0))
    else
      var before := ApplyUpTo(op, k - 1, root, h, m);
      if before.error.Some? then before
      else
        Tried(op, k - 1, root, Apply(op.what.ops[k - 1], root, before.heap, before.memory))
  }

  /** What follows the outcome `o` of part `k`. */
  ghost function Tried(op: Op, k: nat, root: Agent, o: Outcome): Outcome
    requires Grounded(op) && op.what.Compound? && k < |op.what.ops|
    decreases op.depth, 0, k
  {
    if o.error.None? then Outcome(None, o.heap, Counted(o.memory, op, k + 1))
    else
      var u := UndoDown(op, k, root, o.heap, o.memory);
      if u.error.Some? then u else Outcome(o.error, u.heap, Counted(u.memory, op, 0))
  }

  ghost function Undo(op: Op, root: Agent, h: Heap, m: Memory): Outcome
    requires Grounded(op)
    decreases op.depth, 1, 0
  {
    match op.what
    case Primitive(_, _) => UndoOne(op, root, h, m)
    case Compound(ops) =>
      var count := Get(m, op).appliedCount;
      if count == 0 then Outcome(Some(UndoBeforeApply), h, m)
      else
        var u := UndoDown(op, if count < |ops| then count else |ops|, root, h, m);
        if u.error.Some? then u else Outcome(None, u.heap, Counted(u.memory, op, 0))
  }

  /** Parts `k - 1` down to `0`; the first error ends it. */
  ghost function UndoDown(op: Op, k: nat, root: Agent, h: Heap, m: Memory): Outcome
    requires Grounded(op) && op.what.Compound? && k <= |op.what.ops|
    decreases op.depth, 0, k
  {
    if k == 0 then Outcome(None, h, m)
    else
      var o := Undo(op.what.ops[k - 1], root, h, m);
      if o.error.Some? then o else UndoDown(op, k - 1, root, o.heap, o.memory)
  }

  ghost function DepthOver(ops: seq<Op>): (d: nat)
    ensures forall i :: 0 <= i < |ops| ==> ops[i].depth < d
  {
    if |ops| == 0 then 0
    else
      var d, last := DepthOver(ops[..|ops| - 1]), ops[|ops| - 1].depth;
      if last < d then d else last + 1
  }

  ghost function HeapOf(agents: set<Agent>): Heap
    reads agents
  {
    map a | a in agents :: a.fields
  }

  ghost function MemoryOf(ops: set<Op>): Memory
    reads ops
  {
    map op | op in ops :: Memo(op.snapshot, op.appliedCount)
  }

  /** `ops` holds the op and everything below it. */
  ghost predicate Among(op: Op, ops: set<Op>)
    requires Grounded(op)
    decreases op.depth
  {
    op in ops &&
    (op.what.Compound? ==> forall i :: 0 <= i < |op.what.ops| ==> Among(op.what.ops[i], ops))
  }

  class Op {
    const what: What
    ghost const depth: nat
    var snapshot: Snapshot
    var appliedCount: nat

    constructor Primitive(path: string, action: Action)
      ensures what == What.Primitive(path, action) && snapshot == Nothing && Grounded(this)
    {
      what, depth := What.Primitive(path, action), 0;
      snapshot, appliedCount := Nothing, 0;
    }

    constructor Compound(ops: seq<Op>)
      requires forall i :: 0 <= i < |ops| ==> Grounded(ops[i])
      ensures what == What.Compound(ops) && appliedCount == 0 && Grounded(this)
    {
      what, depth := What.Compound(ops), DepthOver(ops);
      snapshot, appliedCount := Nothing, 0;
    }

    method ApplyPrimitive(root: Agent, ghost agents: set<Agent>, ghost ops: set<Op>) returns (error: Option<Error>)
      requires what.Primitive? && root in agents && Closed(agents) && this in ops
      modifies agents, this
      ensures Outcome(error, HeapOf(agents), MemoryOf(ops)) ==
              ApplyOne(this, root, old(HeapOf(agents)), old(MemoryOf(ops)))
      ensures error.None? ==> Edited(root, what.path, what.action, old(HeapOf(agents)), HeapOf(agents))
      ensures error.Some? ==> HeapOf(agents) == old(HeapOf(agents)) &&
                              Raises(root, what.path, what.action, HeapOf(agents), error.value)
    {
      ApplyOneEdits(this, root, HeapOf(agents), MemoryOf(ops));
      var action := what.action;
      if action.AppendExample? && action.example.None? {
        return Some(BadValue);
      }
      var target := ResolvePath(root, what.path);
      WalkStaysInside(agents, root, Split(what.path));
      if target.None? {
        return Some(NoSuchChild);
      }
      var f := target.value.fields;
      var f' := Edit(action, f);
      if f'.None? {
        return Some(BadValue);
      }
      snapshot := Taken(action, f);
      target.value.fields := f'.value;
      assert HeapOf(agents) == old(HeapOf(agents))[target.value := f'.value];
      assert MemoryOf(ops) == Remembering(old(MemoryOf(ops)), this, snapshot);
      error := None;
    }

    method UndoPrimitive(root: Agent, ghost agents: set<Agent>, ghost ops: set<Op>) returns (error: Option<Error>)
      requires what.Primitive? && root in agents && Closed(agents) && this in ops
      modifies agents, this
      ensures Outcome(error, HeapOf(agents), MemoryOf(ops)) ==
              UndoOne(this, root, old(HeapOf(agents)), old(MemoryOf(ops)))
    {
      if snapshot.Nothing? {
        return Some(UndoBeforeApply);
      }
      var target := ResolvePath(root, what.path);
      WalkStaysInside(agents, root, Split(what.path));
      if target.None? {
        return Some(NoSuchChild);
      }
      target.value.fields := PutBack(snapshot, target.value.fields);
      snapshot := Nothing;
      assert HeapOf(agents) == old(HeapOf(agents))[target.value := target.value.fields];
      assert MemoryOf(ops) == Remembering(old(MemoryOf(ops)), this, Nothing);
      error := None;
    }

    method SetCount(count: nat, ghost ops: set<Op>)
      requires this in ops
      modifies this`appliedCount
      ensures MemoryOf(ops) == Counted(old(MemoryOf(ops)), this, count)
    {
      appliedCount := count;
    }

    method Rollback(k: nat, root: Agent, ghost agents: set<Agent>, ghost ops: set<Op>) returns (error: Option<Error>)
      requires Grounded(this) && Among(this, ops) && root in agents && Closed(agents)
      requires what.Compound? && k <= |what.ops|
      modifies agents, ops
      ensures Outcome(error, HeapOf(agents), MemoryOf(ops)) ==
              UndoDown(this, k, root, old(HeapOf(agents)), old(MemoryOf(ops)))
      decreases depth, 0
    {
      ghost var h, m := HeapOf(agents), MemoryOf(ops);
      for i := k downto 0
        invariant UndoDown(this, k, root, h, m) == UndoDown(this, i, root, HeapOf(agents), MemoryOf(ops))
      {
        error := what.ops[i].UndoOp(root, agents, ops);
        if error.Some? {
          return;
        }
      }
      error := None;
    }

    method UndoOp(root: Agent, ghost agents: set<Agent>, ghost ops: set<Op>) returns (error: Option<Error>)
      requires Grounded(this) && Among(this, ops) && root in agents && Closed(agents)
      modifies agents, ops
      ensures Outcome(error, HeapOf(agents), MemoryOf(ops)) ==
              Undo(this, root, old(HeapOf(agents)), old(MemoryOf(ops)))
      decreases depth, 1
    {
      if what.Primitive? {
        error := UndoPrimitive(root, agents, ops);
        return;
      }
      if appliedCount == 0 {
        return Some(UndoBeforeApply);
      }
      error := Rollback(if appliedCount < |what.ops| then appliedCount else |what.ops|, root, agents, ops);
      if error.None? {
        SetCount(0, ops);
      }
    }

    method ApplyPart(k: nat, root: Agent, ghost agents: set<Agent>, ghost ops: set<Op>) returns (error: Option<Error>)
      requires Grounded(this) && Among(this, ops) && root in agents && Closed(agents)
      requires what.Compound? && k < |what.ops|
      modifies agents, ops
      ensures Outcome(error, HeapOf(agents), MemoryOf(ops)) ==
              Tried(this, k, root, Apply(what.ops[k], root, old(HeapOf(agents)), old(MemoryOf(ops))))
      decreases depth, 0
    {
      error := what.ops[k].ApplyOp(root, agents, ops);
      if error.None? {
        SetCount(k + 1, ops);
      } else {
        var failure := Rollback(k, root, agents, ops);
        if failure.Some? {
          error := failure;
        } else {
          SetCount(0, ops);
        }
      }
    }

    method ApplyParts(root: Agent, ghost agents: set<Agent>, ghost ops: set<Op>) returns (error: Option<Error>)
      requires Grounded(this) && Among(this, ops) && root in agents && Closed(agents) && what.Compound?
      modifies agents, ops
      ensures Outcome(error, HeapOf(agents), MemoryOf(ops)) ==
              ApplyUpTo(this, |what.ops|, root, old(HeapOf(agents)), old(MemoryOf(ops)))
      decreases depth, 1
    {
      ghost var h, m := HeapOf(agents), MemoryOf(ops);
      SetCount(0, ops);
      var i := 0;
      error := None;
      while i < |what.ops| && error.None?
        invariant 0 <= i <= |what.ops|
        invariant ApplyUpTo(this, i, root, h, m) == Outcome(error, HeapOf(agents), MemoryOf(ops))
      {
        OneMore(this, i, root, h, m, HeapOf(agents), MemoryOf(ops));
        error := ApplyPart(i, root, agents, ops);
        i := i + 1;
      }
      if error.Some? {
        FailedForGood(this, i, |what.ops|, root, h, m, Outcome(error, HeapOf(agents), MemoryOf(ops)));
      }
    }

    method ApplyOp(root: Agent, ghost agents: set<Agent>, ghost ops: set<Op>) returns (error: Option<Error>)
      requires Grounded(this) && Among(this, ops) && root in agents && Closed(agents)
      modifies agents, ops
      ensures Outcome(error, HeapOf(agents), MemoryOf(ops)) ==
              Apply(this, root, old(HeapOf(agents)), old(MemoryOf(ops)))
      ensures what.Primitive? && error.None? ==>
              Edited(root, what.path, what.action, old(HeapOf(agents)), HeapOf(agents))
      ensures what.Primitive? && error.Some? ==>
              HeapOf(agents) == old(HeapOf(agents)) &&
              Raises(root, what.path, what.action, HeapOf(agents), error.value)
      decreases depth, 2
    {
      if what.Primitive? {
        error := ApplyPrimitive(root, agents, ops);
      } else {
        error := ApplyParts(root, agents, ops);
      }
    }
  }

  lemma OneMore(op: Op, i: nat, root: Agent, h: Heap, m: Memory, h': Heap, m': Memory)
    requires Grounded(op) && op.what.Compound? && i < |op.what.ops|
    requires ApplyUpTo(op, i, root, h, m) == Outcome(None, h', m')
    ensures ApplyUpTo(op, i + 1, root, h, m) == Tried(op, i, root, Apply(op.what.ops[i], root, h', m'))
  {
  }

  lemma StaysFailed(op: Op, k: nat, root: Agent, h: Heap, m: Memory)
    requires Grounded(op) && op.what.Compound? && k < |op.what.ops|
    requires ApplyUpTo(op, k, root, h, m).error.Some?
    ensures ApplyUpTo(op, k + 1, root, h, m) == ApplyUpTo(op, k, root, h, m)
  {
    var before := ApplyUpTo(op, k, root, h, m);
    assert ApplyUpTo(op, k + 1, root, h, m) == before;
  }

  lemma {:induction false} FailedForGood(op: Op, i: nat, k: nat, root: Agent, h: Heap, m: Memory, o: Outcome)
    requires Grounded(op) && op.what.Compound? && i <= k <= |op.what.ops|
    requires o.error.Some? && ApplyUpTo(op, i, root, h, m) == o
    ensures ApplyUpTo(op, k, root, h, m) == o
    decreases k - i
  {
    if i < k {
      StaysFailed(op, i, root, h, m);
      FailedForGood(op, i + 1, k, root, h, m, o);
    }
  }
}
