/** Freezing a tree of agents to one record and thawing it back. */
module AgentFreeze {
  import opened Options
  import opened AgentTrees
  import opened AgentClone

  // ---- Redaction -------------------------------------------------------------------------

  function WithoutKey(d: Decl): Decl {
    if d.config.Some? then d.(config := Some(d.config.value.(apiKey := None))) else d
  }

  function Redact(s: State): State
    decreases s
  {
    State(s.cls, WithoutKey(s.decl), s.inputName, s.outputName, map k | k in s.children :: Redact(s.children[k]))
  }

  /** The configuration without its key; no configuration stays none. */
  ghost predicate Keyless(c: Option<Config>, k: Option<Config>) {
    k.Some? == c.Some? && (c.Some? ==> k.value.apiKey == None && k.value.rest == c.value.rest)
  }

  /** The declared fields other than the name and the key are the same. */
  ghost predicate SameButKey(d: Decl, e: Decl) {
    && e.role == d.role && e.task == d.task && e.style == d.style && e.context == d.context
    && e.rules == d.rules && e.examples == d.examples && Keyless(d.config, e.config)
  }

  /** Redaction removes the key at every depth and nothing else. */
  lemma {:induction false} RedactedAt(s: State, p: Path)
    ensures At(Redact(s), p).Some? == At(s, p).Some?
    ensures At(s, p).Some? ==>
      var r, t := At(Redact(s), p).value, At(s, p).value;
      r.cls == t.cls && r.decl == WithoutKey(t.decl) && r.inputName == t.inputName && r.outputName == t.outputName
    ensures At(s, p).Some? ==>
      var r, t := At(Redact(s), p).value, At(s, p).value;
      r.decl.name == t.decl.name && SameButKey(t.decl, r.decl) && r.children.Keys == t.children.Keys
    decreases |p|
  {
    if |p| > 0 && p[0] in s.children {
      RedactedAt(s.children[p[0]], p[1..]);
    }
  }

  // ---- References by attribute name -----------------------------------------------------------

  /** `None`: the value refers to an agent that is no child, or holds an agent in a set. */
  function Substitute(v: Value<Agent>, names: map<Agent, string>): Option<Value<string>>
    decreases v
  {
    match v
    case Atom(n) => Some(Atom(n))
    case Ref(to) => if to in names then Some(Ref(names[to])) else None
    case ListOf(items) =>
      if forall i :: 0 <= i < |items| ==> Substitute(items[i], names).Some? then
        Some(ListOf(seq(|items|, i requires 0 <= i < |items| && Substitute(items[i], names).Some? =>
          Substitute(items[i], names).value)))
      else None
    case DictOf(entries) =>
      if forall k :: k in entries ==> Substitute(entries[k], names).Some? then
        Some(DictOf(map k | k in entries :: Substitute(entries[k], names).value))
      else None
    case SetWith(_) => None
  }

  function Resolve(w: Value<string>, children: map<string, Agent>): Value<Agent>
    requires Resolvable(w, children.Keys)
    decreases w
  {
    match w
    case Atom(n) => Atom(n)
    case Ref(to) => Ref(children[to])
    case ListOf(items) => ListOf(seq(|items|, i requires 0 <= i < |items| => Resolve(items[i], children)))
    case DictOf(entries) => DictOf(map k | k in entries :: Resolve(entries[k], children))
    case SetWith(member) => SetWith(children[member])
  }

  predicate Resolvable(w: Value<string>, names: set<string>)
    decreases w
  {
    match w
    case Atom(_) => true
    case Ref(to) => to in names
    case ListOf(items) => forall i :: 0 <= i < |items| ==> Resolvable(items[i], names)
    case DictOf(entries) => forall k :: k in entries ==> Resolvable(entries[k], names)
    case SetWith(member) => member in names
  }

  /** `names` gives every child one of the attributes it is attached under. */
  ghost predicate Naming(names: map<Agent, string>, children: map<string, Agent>) {
    names.Keys == children.Values && forall c :: c in names ==> names[c] in children && children[names[c]] == c
  }

  /** The frozen value is the live one with a child's attribute in place of the child. */
  ghost predicate Stands(v: Value<Agent>, w: Value<string>, children: map<string, Agent>)
    decreases v
  {
    match v
    case Atom(n) => w == Atom(n)
    case Ref(to) => w.Ref? && w.to in children && children[w.to] == to
    case ListOf(items) => w.ListOf? && |w.items| == |items| &&
      forall i :: 0 <= i < |items| ==> Stands(items[i], w.items[i], children)
    case DictOf(entries) => w.DictOf? && w.entries.Keys == entries.Keys &&
      forall k :: k in entries ==> Stands(entries[k], w.entries[k], children)
    case SetWith(_) => false
  }

  /** What freezing accepts: references to own children, in lists and dicts only. */
  ghost predicate Storable(v: Value<Agent>, children: map<string, Agent>)
    decreases v
  {
    match v
    case Atom(_) => true
    case Ref(to) => to in children.Values
    case ListOf(items) => forall i :: 0 <= i < |items| ==> Storable(items[i], children)
    case DictOf(entries) => forall k :: k in entries ==> Storable(entries[k], children)
    case SetWith(_) => false
  }

  lemma {:induction false} SubstituteStands(v: Value<Agent>, names: map<Agent, string>, children: map<string, Agent>)
    requires Naming(names, children)
    ensures Substitute(v, names).Some? <==> Storable(v, children)
    ensures Substitute(v, names).Some? ==> Stands(v, Substitute(v, names).value, children)
    decreases v
  {
    match v
    case Atom(_) =>
    case Ref(to) =>
    case ListOf(items) =>
      forall i | 0 <= i < |items|
        ensures Substitute(items[i], names).Some? <==> Storable(items[i], children)
        ensures Substitute(items[i], names).Some? ==> Stands(items[i], Substitute(items[i], names).value, children)
      {
        SubstituteStands(items[i], names, children);
      }
    case DictOf(entries) =>
      forall k | k in entries
        ensures Substitute(entries[k], names).Some? <==> Storable(entries[k], children)
        ensures Substitute(entries[k], names).Some? ==>
          Stands(entries[k], Substitute(entries[k], names).value, children)
      {
        SubstituteStands(entries[k], names, children);
      }
    case SetWith(_) =>
  }

  /** REFERENCES ROUND TRIP. A frozen value resolves in any set of children attached under the same
      names, and every reference lands on the child attached under the same attribute. */
  lemma {:induction false} ResolveCopies(v: Value<Agent>, w: Value<string>, children: map<string, Agent>,
                                         twins: map<string, Agent>)
    requires Stands(v, w, children) && twins.Keys == children.Keys
    requires forall k, l :: k in children && l in children && children[k] == children[l] ==> k == l
    ensures Resolvable(w, twins.Keys) && Copied(v, Resolve(w, twins), children, twins)
    decreases v
  {
    match v
    case Atom(_) =>
    case Ref(to) =>
    case ListOf(items) =>
      forall i | 0 <= i < |items|
        ensures Resolvable(w.items[i], twins.Keys) && Copied(items[i], Resolve(w.items[i], twins), children, twins)
      {
        ResolveCopies(items[i], w.items[i], children, twins);
      }
    case DictOf(entries) =>
      forall k | k in entries
        ensures Resolvable(w.entries[k], twins.Keys) &&
          Copied(entries[k], Resolve(w.entries[k], twins), children, twins)
      {
        ResolveCopies(entries[k], w.entries[k], children, twins);
      }
    case SetWith(_) =>
  }

  lemma {:induction false} StandsResolvable(v: Value<Agent>, w: Value<string>, children: map<string, Agent>)
    requires Stands(v, w, children)
    ensures Resolvable(w, children.Keys)
    decreases v
  {
    match v
    case Atom(_) =>
    case Ref(_) =>
    case ListOf(items) =>
      forall i | 0 <= i < |items|
        ensures Resolvable(w.items[i], children.Keys)
      {
        StandsResolvable(items[i], w.items[i], children);
      }
    case DictOf(entries) =>
      forall k | k in entries
        ensures Resolvable(w.entries[k], children.Keys)
      {
        StandsResolvable(entries[k], w.entries[k], children);
      }
    case SetWith(_) =>
  }

  // ---- The labelled tree ----------------------------------------------------------------------

  datatype Entry = Entry(path: Path, agent: Agent)

  ghost predicate Labels(root: Agent, out: seq<Entry>) {
    (forall i :: 0 <= i < |out| ==> Walk(root, out[i].path) == Some(out[i].agent)) &&
    forall i, j :: 0 <= i < j < |out| ==> out[i].agent != out[j].agent
  }

  ghost predicate SeenIn(seen: set<Agent>, out: seq<Entry>) {
    (forall i :: 0 <= i < |out| ==> out[i].agent in seen) &&
    forall x :: x in seen ==> exists i :: 0 <= i < |out| && out[i].agent == x
  }

  lemma WalkSnoc(root: Agent, p: Path, a: Agent, k: string)
    requires Walk(root, p) == Some(a) && k in a.children
    ensures Walk(root, p + [k]) == Some(a.children[k])
  {
    WalkOn(root, p, [k]);
    assert Walk(a, [k]) == Walk(a.children[k], []);
  }

  /** The inner loop: children not seen yet get a label and go to the end of the list. */
  method Expand(root: Agent, e: Entry, out: seq<Entry>, seen: set<Agent>)
    returns (out': seq<Entry>, seen': set<Agent>)
    requires Labels(root, out) && SeenIn(seen, out) && Walk(root, e.path) == Some(e.agent)
    ensures Labels(root, out') && SeenIn(seen', out')
    ensures |out| <= |out'| && out'[..|out|] == out && seen <= seen'
    ensures forall k :: k in e.agent.children ==> e.agent.children[k] in seen'
    ensures |out'| > |out| ==> seen != seen'
    ensures forall i :: |out| <= i < |out'| ==> |out'[i].path| == |e.path| + 1
  {
    out', seen' := out, seen;
    var todo := e.agent.children.Keys;
    while todo != {}
      invariant todo <= e.agent.children.Keys
      invariant Labels(root, out') && SeenIn(seen', out')
      invariant |out| <= |out'| && out'[..|out|] == out && seen <= seen'
      invariant forall k :: k in e.agent.children && k !in todo ==> e.agent.children[k] in seen'
      invariant |out'| > |out| ==> seen != seen'
      invariant forall i :: |out| <= i < |out'| ==> |out'[i].path| == |e.path| + 1
      decreases todo
    {
      var k :| k in todo;
      todo := todo - {k};
      var child := e.agent.children[k];
      if child !in seen' {
        WalkSnoc(root, e.path, e.agent, k);
        AddLabel(root, out', seen', Entry(e.path + [k], child));
        seen', out' := seen' + {child}, out' + [Entry(e.path + [k], child)];
      }
    }
  }

  lemma AddLabel(root: Agent, out: seq<Entry>, seen: set<Agent>, e: Entry)
    requires Labels(root, out) && SeenIn(seen, out) && Walk(root, e.path) == Some(e.agent) && e.agent !in seen
    ensures Labels(root, out + [e]) && SeenIn(seen + {e.agent}, out + [e])
  {
    var more := out + [e];
    forall x | x in seen + {e.agent}
      ensures exists i :: 0 <= i < |more| && more[i].agent == x
    {
      if x in seen {
        var i :| 0 <= i < |out| && out[i].agent == x;
        assert more[i].agent == x;
      } else {
        assert more[|out|].agent == x;
      }
    }
  }

  lemma {:induction false} ClosedCovers(a: Agent, seen: set<Agent>)
    requires Ranked(a) && a in seen
    requires forall x, k :: x in seen && k in x.children ==> x.children[k] in seen
    ensures Below(a) <= seen
    decreases a.rank
  {
    forall k | k in a.children
      ensures Below(a.children[k]) <= seen
    {
      ClosedCovers(a.children[k], seen);
    }
  }

  /** No path to a labelled agent is shorter than its label. */
  ghost predicate Shortest(root: Agent, out: seq<Entry>) {
    forall i: nat, p: Path :: i < |out| && Walk(root, p) == Some(out[i].agent) ==> |out[i].path| <= |p|
  }

  /** Labels get longer along the list, and are at most one longer than the one expanded next. */
  ghost predicate Levelled(out: seq<Entry>, done: nat) {
    (forall i, j :: 0 <= i < j < |out| ==> |out[i].path| <= |out[j].path|) &&
    (done < |out| ==> forall i :: 0 <= i < |out| ==> |out[i].path| <= |out[done].path| + 1)
  }

  ghost predicate Near(out: seq<Entry>, x: Agent, length: nat) {
    exists l :: 0 <= l < |out| && out[l].agent == x && |out[l].path| <= length
  }

  /** `_labelled_tree`: breadth first, every agent once, under a shortest path that leads to it. */
  method LabelledTree(root: Agent) returns (out: seq<Entry>)
    requires Ranked(root)
    ensures Labels(root, out) && Shortest(root, out)
    ensures forall x :: x in Below(root) ==> exists i :: 0 <= i < |out| && out[i].agent == x
  {
    out := [Entry([], root)];
    var seen := {root};
    var done := 0;
    ghost var all := Below(root);
    assert out[0].agent == root;
    while done < |out|
      invariant Labels(root, out) && SeenIn(seen, out) && root in seen && seen <= all
      invariant 0 <= done <= |out| && out[0] == Entry([], root)
      invariant Expanded(out, done) && Levelled(out, done)
      decreases all - seen, |out| - done
    {
      var out', seen' := Expand(root, out[done], out, seen);
      AllBelow(root, out', seen');
      StillLevelled(out, done, out');
      StillExpanded(out, done, out', seen');
      Shrinks(all, seen, seen');
      out, seen, done := out', seen', done + 1;
    }
    forall x, k | x in seen && k in x.children
      ensures x.children[k] in seen
    {
      var i :| 0 <= i < |out| && out[i].agent == x;
      assert Near(out, out[i].agent.children[k], |out[i].path| + 1);
    }
    ClosedCovers(root, seen);
    forall i: nat, p: Path | i < |out| && Walk(root, p) == Some(out[i].agent)
      ensures |out[i].path| <= |p|
    {
      ShortestTo(root, out, p, i);
    }
  }

  lemma StillLevelled(out: seq<Entry>, done: nat, out': seq<Entry>)
    requires done < |out| <= |out'| && out'[..|out|] == out && Levelled(out, done)
    requires forall i :: |out| <= i < |out'| ==> |out'[i].path| == |out[done].path| + 1
    ensures Levelled(out', done + 1)
    ensures forall i :: 0 <= i < |out'| ==> |out'[i].path| <= |out[done].path| + 1
  {
    assert forall i :: 0 <= i < |out| ==> out'[i] == out'[..|out|][i];
  }

  lemma {:induction false} ShortestTo(root: Agent, out: seq<Entry>, p: Path, i: nat)
    requires Labels(root, out) && |out| > 0 && out[0] == Entry([], root) && Expanded(out, |out|)
    requires i < |out| && Walk(root, p) == Some(out[i].agent)
    ensures |out[i].path| <= |p|
    decreases |p|
  {
    if |p| == 0 {
      assert i == 0 by {
        assert out[i].agent == out[0].agent;
      }
    } else {
      WalkInit(root, p);
      var q, k := p[..|p| - 1], p[|p| - 1];
      var j := LabelOf(root, out, q);
      ShortestTo(root, out, q, j);
      assert Near(out, out[j].agent.children[k], |out[j].path| + 1);
      var l :| 0 <= l < |out| && out[l].agent == out[i].agent && |out[l].path| <= |out[j].path| + 1;
      assert l == i;
    }
  }

  /** Every path leads to an agent with a label. */
  lemma {:induction false} LabelOf(root: Agent, out: seq<Entry>, p: Path) returns (i: nat)
    requires |out| > 0 && out[0] == Entry([], root) && Expanded(out, |out|) && Walk(root, p).Some?
    ensures i < |out| && Walk(root, p) == Some(out[i].agent)
    decreases |p|
  {
    if |p| == 0 {
      i := 0;
    } else {
      WalkInit(root, p);
      var j := LabelOf(root, out, p[..|p| - 1]);
      assert Near(out, out[j].agent.children[p[|p| - 1]], |out[j].path| + 1);
      i :| 0 <= i < |out| && out[i].agent == out[j].agent.children[p[|p| - 1]];
    }
  }

  /** The children of the first `n` agents have labels, at most one longer than those of the agents. */
  ghost predicate Expanded(out: seq<Entry>, n: nat)
    requires n <= |out|
  {
    forall i, k :: 0 <= i < n && k in out[i].agent.children ==> Near(out, out[i].agent.children[k], |out[i].path| + 1)
  }

  lemma StillExpanded(out: seq<Entry>, n: nat, out': seq<Entry>, seen': set<Agent>)
    requires n < |out| <= |out'| && out'[..|out|] == out && Expanded(out, n) && SeenIn(seen', out')
    requires forall k :: k in out[n].agent.children ==> out[n].agent.children[k] in seen'
    requires forall i :: 0 <= i < |out'| ==> |out'[i].path| <= |out[n].path| + 1
    ensures Expanded(out', n + 1)
  {
    forall i, k | 0 <= i < n + 1 && k in out'[i].agent.children
      ensures Near(out', out'[i].agent.children[k], |out'[i].path| + 1)
    {
      assert out'[i] == out'[..|out|][i] == out[i];
      if i < n {
        assert Near(out, out[i].agent.children[k], |out[i].path| + 1);
        var l :| 0 <= l < |out| && out[l].agent == out[i].agent.children[k] && |out[l].path| <= |out[i].path| + 1;
        assert out'[l] == out'[..|out|][l] == out[l];
      } else {
        var l :| 0 <= l < |out'| && out'[l].agent == out[n].agent.children[k];
      }
    }
  }

  lemma Shrinks(all: set<Agent>, seen: set<Agent>, seen': set<Agent>)
    requires seen <= seen' <= all
    ensures seen != seen' ==> all - seen' < all - seen
  {
    if seen != seen' {
      var x :| x in seen' && x !in seen;
      assert x in all - seen;
    }
  }

  lemma AllBelow(root: Agent, out: seq<Entry>, seen: set<Agent>)
    requires Ranked(root) && Labels(root, out) && SeenIn(seen, out)
    ensures seen <= Below(root)
  {
    forall x | x in seen
      ensures x in Below(root)
    {
      var i :| 0 <= i < |out| && out[i].agent == x;
      WalkBelow(root, out[i].path);
    }
  }

  // ---- Freeze ------------------------------------------------------------------------------------

  type Routing = map<string, Value<string>>

  /** A node of the graph that `build()` has left on the root. */
  datatype Recorded = Recorded(path: string, io: Io)

  /** `{n.path: (n.input_type, n.output_type) for n in nodes}`. */
  function IoMap(graph: seq<Recorded>): map<string, Io> {
    if |graph| == 0 then map[]
    else IoMap(graph[..|graph| - 1])[graph[|graph| - 1].path := graph[|graph| - 1].io]
  }

  datatype Payload = Payload(
    state: State,
    classes: map<string, Class>,
    routing: map<string, Routing>,
    graph: seq<Recorded>)

  /** The frozen routing state of one agent. */
  ghost predicate FrozenExtras(a: Agent, w: Routing) {
    w.Keys == a.extras.Keys && forall n :: n in w ==> Stands(a.extras[n], w[n], a.children)
  }

  /** Different paths in the tree have different dotted forms. */
  ghost predicate Unambiguous(root: Agent) {
    forall p: Path, q: Path :: SameKey(root, p, q) ==> p == q
  }

  ghost predicate SameKey(root: Agent, p: Path, q: Path) {
    Walk(root, p).Some? && Walk(root, q).Some? && Dotted(root.decl.name, p) == Dotted(root.decl.name, q)
  }

  /** Attribute names without dots are enough for that. */
  lemma PlainIsUnambiguous(root: Agent)
    requires forall p: Path :: Walk(root, p).Some? ==> Plain(p)
    ensures Unambiguous(root)
  {
    forall p: Path, q: Path | SameKey(root, p, q)
      ensures p == q
    {
      DottedInjective(root.decl.name, p, q);
    }
  }

  /** An attribute named like a path below a sibling gets that path's key. */
  lemma DottedNamesCollide(name: string, a: string, b: string)
    ensures Dotted(name, [a, b]) == Dotted(name, [a + "." + b])
    ensures [a, b] != [a + "." + b]
  {
    assert [a, b][..1] == [a] && [a][..0] == [] && [a + "." + b][..0] == [];
    assert name + "." + a + "." + b == name + "." + (a + "." + b);
  }

  ghost predicate Labelled(root: Agent, pay: Payload, p: Path) {
    Walk(root, p).Some? && Dotted(root.decl.name, p) in pay.classes
  }

  /** The class and the routing state stored for a path are those of the agent there. */
  ghost predicate LabelFits(root: Agent, pay: Payload, p: Path) {
    Labelled(root, pay, p) &&
    var a, l := Walk(root, p).value, Dotted(root.decl.name, p);
    pay.classes[l] == a.cls && (a.cls.custom <==> l in pay.routing) &&
    (l in pay.routing ==> FrozenExtras(a, pay.routing[l]))
  }

  ghost predicate KeyFits(root: Agent, pay: Payload, l: string) {
    exists p: Path :: l == Dotted(root.decl.name, p) && LabelFits(root, pay, p)
  }

  ghost predicate LabelsFit(root: Agent, pay: Payload) {
    pay.routing.Keys <= pay.classes.Keys && forall l :: l in pay.classes ==> KeyFits(root, pay, l)
  }

  lemma FitsAt(root: Agent, pay: Payload, p: Path)
    requires Unambiguous(root) && LabelsFit(root, pay) && Labelled(root, pay, p)
    ensures LabelFits(root, pay, p)
  {
    assert KeyFits(root, pay, Dotted(root.decl.name, p));
    var q: Path :| Dotted(root.decl.name, p) == Dotted(root.decl.name, q) && LabelFits(root, pay, q);
    assert SameKey(root, p, q);
  }

  ghost predicate OneLabelEach(root: Agent, pay: Payload) {
    forall p: Path, q: Path ::
      Labelled(root, pay, p) && Labelled(root, pay, q) && Walk(root, p) == Walk(root, q) ==> p == q
  }

  ghost predicate AllHaveLabels(root: Agent, pay: Payload)
    requires Ranked(root)
  {
    forall x :: x in Below(root) ==> exists p: Path :: Labelled(root, pay, p) && Walk(root, p) == Some(x)
  }

  /** What a frozen record of `root` holds: its redacted state, and for every agent one label, a path
      that leads to it, with its class and routing state. */
  ghost predicate Describes(root: Agent, pay: Payload)
    requires Ranked(root)
  {
    pay.state == Redact(StateOf(root)) && LabelsFit(root, pay) && OneLabelEach(root, pay) && AllHaveLabels(root, pay)
  }

  ghost predicate StorableAgent(a: Agent) {
    a.cls.custom ==> forall n :: n in a.extras ==> Storable(a.extras[n], a.children)
  }

  ghost predicate Freezable(root: Agent)
    requires Ranked(root)
  {
    forall x :: x in Below(root) ==> StorableAgent(x)
  }

  /** `{id(v): k for k, v in children.items()}`. */
  method NameChildren(a: Agent) returns (names: map<Agent, string>)
    ensures Naming(names, a.children)
  {
    names := map[];
    var todo := a.children.Keys;
    while todo != {}
      invariant todo <= a.children.Keys
      invariant forall k :: k in a.children && k !in todo ==> a.children[k] in names
      invariant forall c :: c in names ==> names[c] in a.children && a.children[names[c]] == c
      decreases todo
    {
      var k :| k in todo;
      names, todo := names[a.children[k] := k], todo - {k};
    }
  }

  method FreezeExtras(a: Agent) returns (w: Option<Routing>)
    ensures w.Some? <==> forall n :: n in a.extras ==> Storable(a.extras[n], a.children)
    ensures w.Some? ==> FrozenExtras(a, w.value)
  {
    var names := NameChildren(a);
    forall n | n in a.extras
      ensures Substitute(a.extras[n], names).Some? <==> Storable(a.extras[n], a.children)
      ensures Substitute(a.extras[n], names).Some? ==>
        Stands(a.extras[n], Substitute(a.extras[n], names).value, a.children)
    {
      SubstituteStands(a.extras[n], names, a.children);
    }
    if forall n :: n in a.extras ==> Substitute(a.extras[n], names).Some? {
      w := Some(map n | n in a.extras :: Substitute(a.extras[n], names).value);
    } else {
      w := None;
    }
  }

  function KeyOf(root: Agent, e: Entry): string {
    Dotted(root.decl.name, e.path)
  }

  ghost predicate KeyAmong(root: Agent, out: seq<Entry>, i: nat, l: string)
    requires i <= |out|
  {
    exists j :: 0 <= j < i && l == KeyOf(root, out[j])
  }

  /** The first `i` labelled agents are in the record. */
  ghost predicate Described(root: Agent, out: seq<Entry>, i: nat, classes: map<string, Class>, routing: map<string,
                            Routing>)
    requires i <= |out|
  {
    routing.Keys <= classes.Keys && (forall l :: l in classes ==> KeyAmong(root, out, i, l)) &&
    forall j :: 0 <= j < i ==> Stored(root, out[j], classes, routing)
  }

  ghost predicate Stored(root: Agent, e: Entry, classes: map<string, Class>, routing: map<string, Routing>) {
    var l := KeyOf(root, e);
    l in classes && classes[l] == e.agent.cls && (e.agent.cls.custom <==> l in routing) &&
    (l in routing ==> FrozenExtras(e.agent, routing[l]))
  }

  method FreezeNodes(root: Agent, out: seq<Entry>)
    returns (classes: map<string, Class>, routing: map<string, Routing>, ok: bool)
    requires Labels(root, out)
    ensures ok <==> forall i :: 0 <= i < |out| ==> StorableAgent(out[i].agent)
    ensures ok && Unambiguous(root) ==> Described(root, out, |out|, classes, routing)
  {
    classes, routing := map[], map[];
    for i := 0 to |out|
      invariant Unambiguous(root) ==> Described(root, out, i, classes, routing)
      invariant forall j :: 0 <= j < i ==> StorableAgent(out[j].agent)
    {
      var l, a := KeyOf(root, out[i]), out[i].agent;
      var w := None;
      if a.cls.custom {
        w := FreezeExtras(a);
        if w.None? {
          return map[], map[], false;
        }
      }
      if Unambiguous(root) {
        OneMoreStored(root, out, i, classes, routing, w);
      }
      classes := classes[l := a.cls];
      if w.Some? {
        routing := routing[l := w.value];
      }
    }
    ok := true;
  }

  lemma KeysDiffer(root: Agent, out: seq<Entry>, i: nat, j: nat)
    requires Unambiguous(root) && Labels(root, out) && i < |out| && j < |out| && i != j
    ensures KeyOf(root, out[i]) != KeyOf(root, out[j])
  {
    assert out[i].agent != out[j].agent;
    assert Walk(root, out[i].path) != Walk(root, out[j].path);
    assert !SameKey(root, out[i].path, out[j].path);
  }

  lemma OneMoreStored(root: Agent, out: seq<Entry>, i: nat, classes: map<string, Class>,
                      routing: map<string, Routing>, w: Option<Routing>)
    requires Unambiguous(root) && Labels(root, out) && i < |out| && Described(root, out, i, classes, routing)
    requires w.Some? == out[i].agent.cls.custom && (w.Some? ==> FrozenExtras(out[i].agent, w.value))
    ensures var l := KeyOf(root, out[i]);
            Described(root, out, i + 1, classes[l := out[i].agent.cls],
                      if w.Some? then routing[l := w.value] else routing)
  {
    var l := KeyOf(root, out[i]);
    var classes', routing' := classes[l := out[i].agent.cls], if w.Some? then routing[l := w.value] else routing;
    forall m | m in classes
      ensures m != l && KeyAmong(root, out, i + 1, m)
    {
      assert KeyAmong(root, out, i, m);
      var j :| 0 <= j < i && m == KeyOf(root, out[j]);
      KeysDiffer(root, out, i, j);
    }
    forall j | 0 <= j < i
      ensures Stored(root, out[j], classes', routing')
    {
      assert Stored(root, out[j], classes, routing);
      KeysDiffer(root, out, i, j);
    }
    assert l == KeyOf(root, out[i]);
    assert KeyAmong(root, out, i + 1, l);
    assert Stored(root, out[i], classes', routing');
  }

  /** `freeze_agent` up to writing the file; `None` is the BuildError of an unsupported reference.
      `graph` are the nodes of the root's graph, none if it has no graph. */
  method Freeze(root: Agent, graph: seq<Recorded>) returns (pay: Option<Payload>)
    requires Ranked(root)
    ensures pay.Some? <==> Freezable(root)
    ensures pay.Some? ==> pay.value.state == Redact(StateOf(root)) && pay.value.graph == graph
    ensures pay.Some? && Unambiguous(root) ==> Describes(root, pay.value)
  {
    var out := LabelledTree(root);
    var classes, routing, ok := FreezeNodes(root, out);
    LabelsCover(root, out);
    if !ok {
      return None;
    }
    pay := Some(Payload(Redact(StateOf(root)), classes, routing, graph));
    if Unambiguous(root) {
      DescribedAll(root, out, pay.value);
    }
  }

  lemma LabelsCover(root: Agent, out: seq<Entry>)
    requires Ranked(root) && Labels(root, out)
    requires forall x :: x in Below(root) ==> exists i :: 0 <= i < |out| && out[i].agent == x
    ensures Freezable(root) <==> forall i :: 0 <= i < |out| ==> StorableAgent(out[i].agent)
  {
    forall i | 0 <= i < |out|
      ensures out[i].agent in Below(root)
    {
      WalkBelow(root, out[i].path);
    }
  }

  /** A labelled path is that of an entry of the labelled tree. */
  lemma LabelledEntry(root: Agent, out: seq<Entry>, pay: Payload, p: Path) returns (j: nat)
    requires Labels(root, out) && Described(root, out, |out|, pay.classes, pay.routing) && Unambiguous(root)
    requires Labelled(root, pay, p)
    ensures j < |out| && out[j].path == p
  {
    assert KeyAmong(root, out, |out|, Dotted(root.decl.name, p));
    j :| 0 <= j < |out| && Dotted(root.decl.name, p) == KeyOf(root, out[j]);
    assert SameKey(root, p, out[j].path);
  }

  lemma DescribedAll(root: Agent, out: seq<Entry>, pay: Payload)
    requires Ranked(root) && Labels(root, out) && Described(root, out, |out|, pay.classes, pay.routing)
    requires forall x :: x in Below(root) ==> exists i :: 0 <= i < |out| && out[i].agent == x
    requires pay.state == Redact(StateOf(root)) && Unambiguous(root)
    ensures Describes(root, pay)
  {
    forall l | l in pay.classes
      ensures KeyFits(root, pay, l)
    {
      assert KeyAmong(root, out, |out|, l);
      var j :| 0 <= j < |out| && l == KeyOf(root, out[j]);
      assert Stored(root, out[j], pay.classes, pay.routing);
      assert LabelFits(root, pay, out[j].path);
    }
    forall p: Path, q: Path | Labelled(root, pay, p) && Labelled(root, pay, q) && Walk(root, p) == Walk(root, q)
      ensures p == q
    {
      var i := LabelledEntry(root, out, pay, p);
      var j := LabelledEntry(root, out, pay, q);
      assert out[i].agent == out[j].agent;
    }
    forall x | x in Below(root)
      ensures exists p: Path :: Labelled(root, pay, p) && Walk(root, p) == Some(x)
    {
      var i :| 0 <= i < |out| && out[i].agent == x;
      assert Stored(root, out[i], pay.classes, pay.routing);
      assert Labelled(root, pay, out[i].path);
    }
  }
}
