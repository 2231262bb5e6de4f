/** Thawing: which frozen trees come back, and what comes back. Freezing labels every agent with one
    path and thawing asks for the label of every path, so an agent under two attributes leaves a
    path without a label, which thawing then misses. Types are looked up in the recorded graph. */
module AgentThaw {
  import opened Options
  import opened AgentTrees
  import opened AgentClone
  import opened AgentFreeze

  /** Declared fields after thawing: no key, and an empty name replaced by the class name. */
  function Rebuilt(cls: string, d: Decl): Decl {
    d.(name := if d.name == "" then cls else d.name)
  }

  ghost predicate ThawedAs(a: Agent, b: Agent)
    requires Ranked(a) && Ranked(b)
    decreases a.rank
  {
    b.decl == Rebuilt(a.cls.name, WithoutKey(a.decl)) && Mirrors(a, b) &&
    forall k :: k in a.children ==> ThawedAs(a.children[k], b.children[k])
  }

  /** Every path below `a`, prefixed by the path of `a`, is among the keys. */
  ghost predicate AllIn(a: Agent, rootName: string, at: Path, keys: set<string>) {
    forall p: Path :: Walk(a, p).Some? ==> Dotted(rootName, at + p) in keys
  }

  ghost predicate AllLabelled(a: Agent, rootName: string, at: Path, pay: Payload) {
    AllIn(a, rootName, at, pay.classes.Keys)
  }

  lemma AllInBelow(a: Agent, rootName: string, at: Path, keys: set<string>, k: string)
    requires k in a.children && AllIn(a, rootName, at, keys)
    ensures AllIn(a.children[k], rootName, at + [k], keys)
  {
    forall p: Path | Walk(a.children[k], p).Some?
      ensures Dotted(rootName, at + [k] + p) in keys
    {
      assert ([k] + p)[1..] == p;
      assert Walk(a, [k] + p).Some?;
      assert at + ([k] + p) == at + [k] + p;
    }
  }

  lemma AllInAbove(a: Agent, rootName: string, at: Path, keys: set<string>)
    requires Dotted(rootName, at) in keys
    requires forall k :: k in a.children ==> AllIn(a.children[k], rootName, at + [k], keys)
    ensures AllIn(a, rootName, at, keys)
  {
    forall p: Path | Walk(a, p).Some?
      ensures Dotted(rootName, at + p) in keys
    {
      if |p| == 0 {
        assert at + p == at;
      } else {
        InVia(a.children[p[0]], rootName, at, keys, p);
      }
    }
  }

  lemma InVia(c: Agent, rootName: string, at: Path, keys: set<string>, p: Path)
    requires |p| > 0 && Walk(c, p[1..]).Some? && AllIn(c, rootName, at + [p[0]], keys)
    ensures Dotted(rootName, at + p) in keys
  {
    var q := p[1..];
    assert Dotted(rootName, at + [p[0]] + q) in keys;
    assert at + p == at + [p[0]] + q;
  }

  lemma InBothWays(a: Agent, rootName: string, at: Path, keys: set<string>)
    ensures AllIn(a, rootName, at, keys) <==>
            Dotted(rootName, at) in keys &&
            forall k :: k in a.children ==> AllIn(a.children[k], rootName, at + [k], keys)
  {
    if AllIn(a, rootName, at, keys) {
      assert Walk(a, []).Some? && at + [] == at;
      forall k | k in a.children
        ensures AllIn(a.children[k], rootName, at + [k], keys)
      {
        AllInBelow(a, rootName, at, keys, k);
      }
    } else if Dotted(rootName, at) in keys &&
              forall k :: k in a.children ==> AllIn(a.children[k], rootName, at + [k], keys) {
      AllInAbove(a, rootName, at, keys);
    }
  }

  /** Two children that both have labels are different agents. */
  lemma LabelledChildrenDiffer(root: Agent, a: Agent, at: Path, pay: Payload, k: string, l: string)
    requires OneLabelEach(root, pay) && Walk(root, at) == Some(a) && k in a.children && l in a.children
    requires AllLabelled(a, root.decl.name, at, pay) && a.children[k] == a.children[l]
    ensures k == l
  {
    ChildLabelled(root, a, at, pay, k);
    ChildLabelled(root, a, at, pay, l);
    assert at + [k] == at + [l];
    assert (at + [k])[|at|] == k && (at + [l])[|at|] == l;
  }

  lemma ChildLabelled(root: Agent, a: Agent, at: Path, pay: Payload, k: string)
    requires Walk(root, at) == Some(a) && k in a.children && AllLabelled(a, root.decl.name, at, pay)
    ensures Labelled(root, pay, at + [k]) && Walk(root, at + [k]) == Some(a.children[k])
  {
    WalkSnoc(root, at, a, k);
    AllInBelow(a, root.decl.name, at, pay.classes.Keys, k);
    assert Walk(a.children[k], []).Some? && at + [k] + [] == at + [k];
  }

  // ---- Rebuilding from the record alone ------------------------------------------------------

  predicate ResolvableAll(w: Routing, names: set<string>) {
    forall n :: n in w ==> Resolvable(w[n], names)
  }

  /** Stored references name children that the stored state has. */
  ghost predicate Sound(s: State, rootName: string, at: Path, pay: Payload)
    decreases s
  {
    (Dotted(rootName, at) in pay.routing ==> ResolvableAll(pay.routing[Dotted(rootName, at)], s.children.Keys)) &&
    forall k :: k in s.children ==> Sound(s.children[k], rootName, at + [k], pay)
  }

  /** The types for a path: those of the recorded node, or those that the class declares. */
  function IoAt(pay: Payload, l: string): Option<Io>
    requires l in pay.classes
  {
    if l in IoMap(pay.graph) then Some(IoMap(pay.graph)[l]) else pay.classes[l].declared
  }

  /** The paths at which an agent can be built: with a class and with types. */
  function Buildable(pay: Payload): set<string> {
    set l | l in pay.classes && IoAt(pay, l).Some?
  }

  /** Every path of the state has a class and types. */
  ghost predicate Known(s: State, rootName: string, at: Path, pay: Payload)
    decreases s
  {
    Dotted(rootName, at) in Buildable(pay) &&
    forall k :: k in s.children ==> Known(s.children[k], rootName, at + [k], pay)
  }

  function Restored(cls: Class, l: string, pay: Payload, children: map<string, Agent>): map<string, Value<Agent>>
    requires l in pay.routing ==> ResolvableAll(pay.routing[l], children.Keys)
  {
    if cls.custom && l in pay.routing then map n | n in pay.routing[l] :: Resolve(pay.routing[l][n], children)
    else map[]
  }

  /** `b` is what the record says about the agent at this path. */
  ghost predicate BuiltFrom(b: Agent, s: State, rootName: string, at: Path, pay: Payload)
    requires Sound(s, rootName, at, pay)
    decreases s
  {
    var l := Dotted(rootName, at);
    l in Buildable(pay) && b.cls == pay.classes[l] && b.io == IoAt(pay, l).value &&
    b.decl == Rebuilt(b.cls.name, s.decl) &&
    b.children.Keys == s.children.Keys && b.extras == Restored(b.cls, l, pay, b.children) &&
    AllDifferent(b.children) &&
    forall k :: k in s.children ==> BuiltFrom(b.children[k], s.children[k], rootName, at + [k], pay)
  }

  /** `c` is built for the stored child `k`; `made` are the agents created. */
  ghost predicate ChildBuilt(c: Agent, s: State, rootName: string, at: Path, pay: Payload, made: set<Agent>, k: string)
    requires Sound(s, rootName, at, pay)
  {
    k in s.children && Ranked(c) && Below(c) <= made && BuiltFrom(c, s.children[k], rootName, at + [k], pay)
  }

  ghost predicate AllDifferent(children: map<string, Agent>) {
    forall k, m :: k in children && m in children && children[k] == children[m] ==> k == m
  }

  /** The children built so far. */
  ghost predicate BuiltSome(children: map<string, Agent>, s: State, rootName: string, at: Path, pay: Payload,
                            made: set<Agent>)
    requires Sound(s, rootName, at, pay)
  {
    AllDifferent(children) && forall k :: k in children ==> ChildBuilt(children[k], s, rootName, at, pay, made, k)
  }

  lemma ChildBuiltGrows(c: Agent, s: State, rootName: string, at: Path, pay: Payload, made: set<Agent>,
                        more: set<Agent>, k: string)
    requires Sound(s, rootName, at, pay) && ChildBuilt(c, s, rootName, at, pay, made, k) && made <= more
    ensures ChildBuilt(c, s, rootName, at, pay, more, k)
  {
  }

  lemma NewChildDiffers(children: map<string, Agent>, s: State, rootName: string, at: Path, pay: Payload,
                        made: set<Agent>, child: Agent, m: string)
    requires Sound(s, rootName, at, pay) && m in children && ChildBuilt(children[m], s, rootName, at, pay, made, m)
    requires Ranked(child) && made !! Below(child)
    ensures children[m] != child
  {
    assert child in Below(child);
    assert children[m] in Below(children[m]);
  }

  lemma StillDifferent(children: map<string, Agent>, k: string, child: Agent)
    requires AllDifferent(children) && forall m :: m in children ==> children[m] != child
    ensures AllDifferent(children[k := child])
  {
  }

  lemma BuiltOneMore(children: map<string, Agent>, s: State, rootName: string, at: Path, pay: Payload,
                     made: set<Agent>, k: string, child: Agent)
    requires Sound(s, rootName, at, pay) && BuiltSome(children, s, rootName, at, pay, made)
    requires Ranked(child) && k !in children && made !! Below(child)
    requires ChildBuilt(child, s, rootName, at, pay, made + Below(child), k)
    ensures BuiltSome(children[k := child], s, rootName, at, pay, made + Below(child))
  {
    var more := made + Below(child);
    forall m | m in children
      ensures children[m] != child && ChildBuilt(children[m], s, rootName, at, pay, more, m)
    {
      NewChildDiffers(children, s, rootName, at, pay, made, child, m);
      ChildBuiltGrows(children[m], s, rootName, at, pay, made, more, m);
    }
    StillDifferent(children, k, child);
  }

  lemma BelowBuilt(b: Agent, made: set<Agent>)
    requires Ranked(b) && forall k :: k in b.children ==> Below(b.children[k]) <= made
    ensures Below(b) <= {b} + made
  {
  }

  method ReconstructChildren(s: State, rootName: string, at: Path, pay: Payload)
    returns (r: Option<map<string, Agent>>, ghost made: set<Agent>)
    requires Sound(s, rootName, at, pay)
    ensures r.Some? <==> forall k :: k in s.children ==> Known(s.children[k], rootName, at + [k], pay)
    ensures r.Some? ==> r.value.Keys == s.children.Keys && BuiltSome(r.value, s, rootName, at, pay, made) && fresh(made)
    decreases s, 0
  {
    var children: map<string, Agent> := map[];
    made := {};
    var todo := s.children.Keys;
    while todo != {}
      invariant todo <= s.children.Keys && children.Keys == s.children.Keys - todo
      invariant forall k :: k in s.children && k !in todo ==> Known(s.children[k], rootName, at + [k], pay)
      invariant fresh(made) && BuiltSome(children, s, rootName, at, pay, made)
      decreases todo
    {
      var k :| k in todo;
      todo := todo - {k};
      var child := Reconstruct(s.children[k], rootName, at + [k], pay);
      if child.None? {
        return None, made;
      }
      BuiltOneMore(children, s, rootName, at, pay, made, k, child.value);
      children, made := children[k := child.value], made + Below(child.value);
    }
    r := Some(children);
  }

  /** `_reconstruct` and, for the agent built, `_restore_extra`; `None` is the BuildError of a missing
      class entry, or of a path without a recorded node whose class declares no types. */
  method Reconstruct(s: State, rootName: string, at: Path, pay: Payload) returns (r: Option<Agent>)
    requires Sound(s, rootName, at, pay)
    ensures r.Some? <==> Known(s, rootName, at, pay)
    ensures r.Some? ==> Ranked(r.value) && fresh(Below(r.value)) && BuiltFrom(r.value, s, rootName, at, pay)
    decreases s, 1
  {
    var l := Dotted(rootName, at);
    if l !in pay.classes {
      return None;
    }
    var io := IoAt(pay, l);
    if io.None? {
      return None;
    }
    var children, made := ReconstructChildren(s, rootName, at, pay);
    if children.None? {
      return None;
    }
    var cls := pay.classes[l];
    var b := new Agent(cls, Rebuilt(cls.name, s.decl), io.value, children.value, Restored(cls, l, pay, children.value));
    BelowBuilt(b, made);
    r := Some(b);
  }

  // ---- A record written by freeze ---------------------------------------------------------------

  /** The paths looked up are those of the record, or none of them is in it. */
  ghost predicate LooksUp(root: Agent, rootName: string, pay: Payload) {
    rootName == root.decl.name || forall p: Path :: Dotted(rootName, p) !in pay.classes
  }

  lemma {:induction false} RecordIsSound(root: Agent, a: Agent, rootName: string, at: Path, pay: Payload)
    requires Ranked(root) && Unambiguous(root) && LabelsFit(root, pay) && LooksUp(root, rootName, pay)
    requires Walk(root, at) == Some(a) && Ranked(a)
    ensures Sound(Redact(StateOf(a)), rootName, at, pay)
    decreases a.rank
  {
    var s := Redact(StateOf(a));
    NodeIsSound(root, a, rootName, at, pay);
    StateChildren(a);
    forall k | k in s.children
      ensures Sound(s.children[k], rootName, at + [k], pay)
    {
      WalkSnoc(root, at, a, k);
      RecordIsSound(root, a.children[k], rootName, at + [k], pay);
    }
    SoundNode(s, rootName, at, pay);
  }

  lemma StateChildren(a: Agent)
    requires Ranked(a)
    ensures var s := Redact(StateOf(a));
            s.children.Keys == a.children.Keys &&
            forall k :: k in a.children ==> s.children[k] == Redact(StateOf(a.children[k]))
  {
  }

  lemma SoundNode(s: State, rootName: string, at: Path, pay: Payload)
    requires Dotted(rootName, at) in pay.routing ==> ResolvableAll(pay.routing[Dotted(rootName, at)], s.children.Keys)
    requires forall k :: k in s.children ==> Sound(s.children[k], rootName, at + [k], pay)
    ensures Sound(s, rootName, at, pay)
  {
  }

  lemma NodeIsSound(root: Agent, a: Agent, rootName: string, at: Path, pay: Payload)
    requires Unambiguous(root) && LabelsFit(root, pay) && LooksUp(root, rootName, pay) && Walk(root, at) == Some(a)
    ensures var l := Dotted(rootName, at); l in pay.routing ==> ResolvableAll(pay.routing[l], a.children.Keys)
  {
    var l := Dotted(rootName, at);
    if l in pay.routing {
      assert l in pay.classes;
      FitsAt(root, pay, at);
      RoutingResolvable(a, pay.routing[l]);
    }
  }

  lemma RoutingResolvable(a: Agent, w: Routing)
    requires FrozenExtras(a, w)
    ensures ResolvableAll(w, a.children.Keys)
  {
    forall n | n in w
      ensures Resolvable(w[n], a.children.Keys)
    {
      StandsResolvable(a.extras[n], w[n], a.children);
    }
  }

  lemma {:induction false} KnownIffBuildable(a: Agent, rootName: string, at: Path, pay: Payload)
    requires Ranked(a)
    ensures Known(Redact(StateOf(a)), rootName, at, pay) <==> AllIn(a, rootName, at, Buildable(pay))
    decreases a.rank
  {
    InBothWays(a, rootName, at, Buildable(pay));
    StateChildren(a);
    forall k | k in a.children
      ensures Known(Redact(StateOf(a.children[k])), rootName, at + [k], pay) <==>
              AllIn(a.children[k], rootName, at + [k], Buildable(pay))
    {
      KnownIffBuildable(a.children[k], rootName, at + [k], pay);
    }
  }

  lemma ChildrenDiffer(root: Agent, a: Agent, at: Path, pay: Payload)
    requires OneLabelEach(root, pay) && Walk(root, at) == Some(a) && AllLabelled(a, root.decl.name, at, pay)
    ensures forall k, m :: k in a.children && m in a.children && a.children[k] == a.children[m] ==> k == m
  {
    forall k, m | k in a.children && m in a.children && a.children[k] == a.children[m]
      ensures k == m
    {
      LabelledChildrenDiffer(root, a, at, pay, k, m);
    }
  }

  lemma RestoredMirrors(a: Agent, b: Agent, l: string, pay: Payload)
    requires l in pay.routing ==> FrozenExtras(a, pay.routing[l]) && ResolvableAll(pay.routing[l], b.children.Keys)
    requires (a.cls.custom <==> l in pay.routing) && b.cls == a.cls && b.children.Keys == a.children.Keys
    requires b.extras == Restored(b.cls, l, pay, b.children)
    requires forall k, m :: k in a.children && m in a.children && a.children[k] == a.children[m] ==> k == m
    requires forall k, m :: k in b.children && m in b.children && b.children[k] == b.children[m] ==> k == m
    ensures Mirrors(a, b)
  {
    if a.cls.custom {
      var w := pay.routing[l];
      forall n | n in a.extras
        ensures n in b.extras && Copied(a.extras[n], b.extras[n], a.children, b.children)
      {
        ResolveCopies(a.extras[n], w[n], a.children, b.children);
      }
    }
  }

  lemma BuiltMirrors(root: Agent, a: Agent, b: Agent, at: Path, pay: Payload)
    requires Unambiguous(root) && LabelsFit(root, pay) && OneLabelEach(root, pay) && Walk(root, at) == Some(a)
    requires AllLabelled(a, root.decl.name, at, pay) && Labelled(root, pay, at)
    requires b.cls == pay.classes[Dotted(root.decl.name, at)] && b.children.Keys == a.children.Keys
    requires var l := Dotted(root.decl.name, at);
      (l in pay.routing ==> ResolvableAll(pay.routing[l], b.children.Keys)) &&
      b.extras == Restored(b.cls, l, pay, b.children)
    requires forall k, m :: k in b.children && m in b.children && b.children[k] == b.children[m] ==> k == m
    ensures b.cls == a.cls && Mirrors(a, b)
  {
    FitsAt(root, pay, at);
    ChildrenDiffer(root, a, at, pay);
    RestoredMirrors(a, b, Dotted(root.decl.name, at), pay);
  }

  lemma {:induction false} BuiltIsThawed(root: Agent, a: Agent, b: Agent, at: Path, pay: Payload)
    requires Unambiguous(root) && LabelsFit(root, pay) && OneLabelEach(root, pay)
    requires Walk(root, at) == Some(a) && Ranked(a) && Ranked(b)
    requires AllLabelled(a, root.decl.name, at, pay) && Sound(Redact(StateOf(a)), root.decl.name, at, pay)
    requires BuiltFrom(b, Redact(StateOf(a)), root.decl.name, at, pay)
    ensures ThawedAs(a, b)
    decreases a.rank
  {
    InBothWays(a, root.decl.name, at, pay.classes.Keys);
    StateChildren(a);
    BuiltMirrors(root, a, b, at, pay);
    forall k | k in a.children
      ensures ThawedAs(a.children[k], b.children[k])
    {
      WalkSnoc(root, at, a, k);
      BuiltIsThawed(root, a.children[k], b.children[k], at + [k], pay);
    }
  }

  /** The name of a class: it holds no dot. */
  predicate ClassName(name: string) {
    name != "" && '.' !in name
  }

  // ---- Types -----------------------------------------------------------------------------------

  /** Thawing finds types for the agent at `p`: its path was recorded, or its class declares them. */
  ghost predicate TypeFound(root: Agent, graph: seq<Recorded>, p: Path)
    requires Walk(root, p).Some?
  {
    Dotted(root.decl.name, p) in IoMap(graph) || Walk(root, p).value.cls.declared.Some?
  }

  ghost predicate TypesFound(root: Agent, graph: seq<Recorded>) {
    forall p: Path :: Walk(root, p).Some? ==> TypeFound(root, graph, p)
  }

  ghost function FoundIo(root: Agent, graph: seq<Recorded>, p: Path): Io
    requires Walk(root, p).Some? && TypeFound(root, graph, p)
  {
    var l := Dotted(root.decl.name, p);
    if l in IoMap(graph) then IoMap(graph)[l] else Walk(root, p).value.cls.declared.value
  }

  /** `b` has the types that were found for it. */
  ghost predicate TypedFrom(root: Agent, b: Agent, graph: seq<Recorded>) {
    forall p: Path :: Walk(root, p).Some? ==>
      TypeFound(root, graph, p) && Walk(b, p).Some? && Walk(b, p).value.io == FoundIo(root, graph, p)
  }

  lemma BuildableAt(root: Agent, pay: Payload, p: Path)
    requires Unambiguous(root) && LabelsFit(root, pay) && Walk(root, p).Some?
    ensures Dotted(root.decl.name, p) in Buildable(pay) <==>
            Labelled(root, pay, p) && TypeFound(root, pay.graph, p)
    ensures Dotted(root.decl.name, p) in Buildable(pay) ==>
            IoAt(pay, Dotted(root.decl.name, p)) == Some(FoundIo(root, pay.graph, p))
  {
    if Labelled(root, pay, p) {
      FitsAt(root, pay, p);
    }
  }

  lemma BuildableIff(root: Agent, pay: Payload)
    requires Unambiguous(root) && LabelsFit(root, pay)
    ensures AllIn(root, root.decl.name, [], Buildable(pay)) <==>
            AllLabelled(root, root.decl.name, [], pay) && TypesFound(root, pay.graph)
  {
    forall p: Path | Walk(root, p).Some?
      ensures Dotted(root.decl.name, [] + p) in Buildable(pay) <==>
              Dotted(root.decl.name, [] + p) in pay.classes.Keys && TypeFound(root, pay.graph, p)
    {
      assert [] + p == p;
      BuildableAt(root, pay, p);
    }
  }

  lemma BuiltIsTyped(root: Agent, b: Agent, pay: Payload)
    requires Ranked(root) && Unambiguous(root) && LabelsFit(root, pay) && TypesFound(root, pay.graph)
    requires Sound(Redact(StateOf(root)), root.decl.name, [], pay)
    requires Ranked(b) && BuiltFrom(b, Redact(StateOf(root)), root.decl.name, [], pay) && ThawedAs(root, b)
    ensures TypedFrom(root, b, pay.graph)
  {
    var s := Redact(StateOf(root));
    forall p: Path | Walk(root, p).Some?
      ensures TypeFound(root, pay.graph, p) && Walk(b, p).Some? && Walk(b, p).value.io == FoundIo(root, pay.graph, p)
    {
      ThawMirrors(root, b, p);
      BuiltAt(b, s, root.decl.name, [], pay, p);
      assert [] + p == p;
      BuildableAt(root, pay, p);
    }
  }

  /** The types found for the agent at `p` are its own. */
  ghost predicate TypeRight(root: Agent, graph: seq<Recorded>, p: Path)
    requires Walk(root, p).Some?
  {
    TypeFound(root, graph, p) && FoundIo(root, graph, p) == Walk(root, p).value.io
  }

  /** Every agent comes back with its own types if and only if each was recorded with them or, where it
      was not recorded, has the types its class declares. */
  lemma TypesComeBackIff(root: Agent, b: Agent, graph: seq<Recorded>)
    requires TypedFrom(root, b, graph)
    ensures (forall p: Path :: Walk(root, p).Some? ==> Walk(b, p).value.io == Walk(root, p).value.io) <==>
            forall p: Path :: Walk(root, p).Some? ==> TypeRight(root, graph, p)
  {
    forall p: Path | Walk(root, p).Some?
      ensures Walk(b, p).value.io == Walk(root, p).value.io <==> TypeRight(root, graph, p)
    {
      assert TypeFound(root, graph, p);
    }
  }

  /** `thaw_agent` on a record that freezing `root` has written; `None` is its BuildError. A frozen
      tree comes back if and only if no agent of it sat under two paths, its root had a name, and every
      agent's path was recorded in the graph or its class declares its types. */
  method Thaw(pay: Payload, ghost root: Agent) returns (r: Option<Agent>)
    requires Ranked(root) && Unambiguous(root) && Describes(root, pay) && ClassName(root.cls.name)
    ensures r.Some? <==> Unshared(root) && root.decl.name != "" && TypesFound(root, pay.graph)
    ensures r.Some? ==> Ranked(r.value) && fresh(Below(r.value)) && ThawedAs(root, r.value)
    ensures r.Some? ==> TypedFrom(root, r.value, pay.graph)
  {
    var rootName := if pay.state.decl.name != "" then pay.state.decl.name else pay.state.cls;
    ThawSucceedsIff(root, pay, rootName);
    r := Reconstruct(pay.state, rootName, [], pay);
    if r.Some? {
      BuiltIsThawed(root, root, r.value, [], pay);
      BuiltIsTyped(root, r.value, pay);
    }
  }

  lemma ThawSucceedsIff(root: Agent, pay: Payload, rootName: string)
    requires Ranked(root) && Unambiguous(root) && Describes(root, pay) && ClassName(root.cls.name)
    requires rootName == if root.decl.name != "" then root.decl.name else root.cls.name
    ensures Sound(pay.state, rootName, [], pay)
    ensures Known(pay.state, rootName, [], pay) <==>
            Unshared(root) && root.decl.name != "" && TypesFound(root, pay.graph)
    ensures Known(pay.state, rootName, [], pay) ==> AllLabelled(root, rootName, [], pay)
  {
    LabelledIffUnshared(root, pay, rootName);
    KnownIffBuildable(root, rootName, [], pay);
    if root.decl.name == "" {
      UnnamedMisses(root, pay);
      var p: Path := [];
      assert Walk(root, p).Some? && [] + p == p;
    } else {
      BuildableIff(root, pay);
    }
    RecordIsSound(root, root, rootName, [], pay);
  }

  lemma {:induction false} DottedStarts(name: string, p: Path)
    ensures |name| <= |Dotted(name, p)| && Dotted(name, p)[..|name|] == name
    ensures |p| > 0 ==> |Dotted(name, p)| > |name| && Dotted(name, p)[|name|] == '.'
  {
    if |p| > 0 {
      DottedStarts(name, p[..|p| - 1]);
    }
  }

  /** The labels of a tree with an unnamed root start with a dot, if they are not empty; thawing looks
      for labels that start with the name of the root's class. */
  lemma UnnamedMisses(root: Agent, pay: Payload)
    requires LabelsFit(root, pay) && root.decl.name == "" && ClassName(root.cls.name)
    ensures forall p: Path :: Dotted(root.cls.name, p) !in pay.classes
  {
    forall p: Path
      ensures Dotted(root.cls.name, p) !in pay.classes
    {
      var l := Dotted(root.cls.name, p);
      DottedStarts(root.cls.name, p);
      assert l[0] == root.cls.name[0] && root.cls.name[0] in root.cls.name;
      if l in pay.classes {
        assert KeyFits(root, pay, l);
        var q: Path :| l == Dotted("", q) && LabelFits(root, pay, q);
        DottedStarts("", q);
      }
    }
  }

  /** FREEZE LABELS WHAT THAW LOOKS UP, exactly for unshared trees with a named root. */
  lemma LabelledIffUnshared(root: Agent, pay: Payload, rootName: string)
    requires Ranked(root) && Unambiguous(root) && Describes(root, pay) && ClassName(root.cls.name)
    requires rootName == if root.decl.name != "" then root.decl.name else root.cls.name
    ensures AllLabelled(root, rootName, [], pay) <==> Unshared(root) && root.decl.name != ""
  {
    if root.decl.name == "" {
      UnnamedMisses(root, pay);
      var p: Path := [];
      assert Walk(root, p).Some? && [] + p == p;
    } else if AllLabelled(root, rootName, [], pay) {
      LabelledUnshared(root, pay);
    } else if Unshared(root) {
      UnsharedLabelled(root, pay);
    }
  }

  lemma LabelledUnshared(root: Agent, pay: Payload)
    requires OneLabelEach(root, pay) && AllLabelled(root, root.decl.name, [], pay)
    ensures Unshared(root)
  {
    forall p: Path, q: Path | Walk(root, p).Some? && Walk(root, p) == Walk(root, q)
      ensures p == q
    {
      LabelledAt(root, pay, p);
      LabelledAt(root, pay, q);
    }
  }

  lemma UnsharedLabelled(root: Agent, pay: Payload)
    requires Ranked(root) && Describes(root, pay) && Unshared(root)
    ensures AllLabelled(root, root.decl.name, [], pay)
  {
    forall p: Path | Walk(root, p).Some?
      ensures Dotted(root.decl.name, [] + p) in pay.classes
    {
      WalkBelow(root, p);
      var q: Path :| Labelled(root, pay, q) && Walk(root, q) == Walk(root, p);
      assert q == p && [] + p == p;
    }
  }

  lemma LabelledAt(root: Agent, pay: Payload, p: Path)
    requires AllLabelled(root, root.decl.name, [], pay) && Walk(root, p).Some?
    ensures Labelled(root, pay, p)
  {
    assert [] + p == p;
  }

  // ---- Without unambiguous paths ----------------------------------------------------------------

  lemma {:induction false} BuiltAt(b: Agent, s: State, rootName: string, at: Path, pay: Payload, p: Path)
    requires Sound(s, rootName, at, pay) && BuiltFrom(b, s, rootName, at, pay) && Walk(b, p).Some?
    ensures var l, x := Dotted(rootName, at + p), Walk(b, p).value;
            l in Buildable(pay) && x.cls == pay.classes[l] && x.io == IoAt(pay, l).value
    decreases |p|
  {
    if |p| == 0 {
      assert at + p == at;
    } else {
      assert at + p == at + [p[0]] + p[1..];
      BuiltAt(b.children[p[0]], s.children[p[0]], rootName, at + [p[0]], pay, p[1..]);
    }
  }

  /** Two agents whose paths have one dotted form come back with one class and the same types, whatever
      the record holds: if they were different, one of them comes back wrong. */
  lemma AmbiguousPathsShareAClass(b: Agent, s: State, rootName: string, pay: Payload, p: Path, q: Path)
    requires Sound(s, rootName, [], pay) && BuiltFrom(b, s, rootName, [], pay)
    requires Walk(b, p).Some? && Walk(b, q).Some? && Dotted(rootName, p) == Dotted(rootName, q)
    ensures Walk(b, p).value.cls == Walk(b, q).value.cls && Walk(b, p).value.io == Walk(b, q).value.io
  {
    BuiltAt(b, s, rootName, [], pay, p);
    BuiltAt(b, s, rootName, [], pay, q);
    assert [] + p == p && [] + q == q;
  }

  // ---- What comes back -----------------------------------------------------------------------

  /** The declared fields came back, but for the key; an agent without a name has that of its class. */
  ghost predicate DeclaredAgain(a: Agent, b: Agent) {
    SameButKey(a.decl, b.decl) && b.decl.name == if a.decl.name == "" then a.cls.name else a.decl.name
  }

  /** At every path: the same class, the declared fields without key, and routing values that refer to
      the new agent's own children under the same attributes. */
  lemma {:induction false} ThawMirrors(a: Agent, b: Agent, p: Path)
    requires Ranked(a) && Ranked(b) && ThawedAs(a, b)
    ensures Walk(b, p).Some? == Walk(a, p).Some?
    ensures Walk(a, p).Some? ==> Mirrors(Walk(a, p).value, Walk(b, p).value)
    ensures Walk(a, p).Some? ==> DeclaredAgain(Walk(a, p).value, Walk(b, p).value)
    decreases |p|
  {
    if |p| > 0 && p[0] in a.children {
      ThawMirrors(a.children[p[0]], b.children[p[0]], p[1..]);
    }
  }

  /** At every path: the agent had a name, and its types come back under their names. */
  ghost predicate NamesKept(a: Agent, b: Agent)
    requires Ranked(a) && Ranked(b) && ThawedAs(a, b)
    decreases a.rank
  {
    (a.decl.name != "" || a.cls.name == "") &&
    b.io.input.name == a.io.input.name && b.io.output.name == a.io.output.name &&
    forall k :: k in a.children ==> NamesKept(a.children[k], b.children[k])
  }

  /** THAWED STATE IS REDACTED STATE, exactly when every agent had a name and its types come back. */
  lemma {:induction false} ThawedStateIff(a: Agent, b: Agent)
    requires Ranked(a) && Ranked(b) && ThawedAs(a, b)
    ensures StateOf(b) == Redact(StateOf(a)) <==> NamesKept(a, b)
    decreases a.rank
  {
    StateChildren(a);
    forall k | k in a.children
      ensures StateOf(b.children[k]) == Redact(StateOf(a)).children[k] <==> NamesKept(a.children[k], b.children[k])
    {
      ThawedStateIff(a.children[k], b.children[k]);
    }
    assert forall k :: k in a.children ==> StateOf(b).children[k] == StateOf(b.children[k]);
    if NamesKept(a, b) {
      assert StateOf(b).children == Redact(StateOf(a)).children;
    }
  }

  /** Freezing and thawing: what can go wrong, and what comes back. */
  method FreezeThenThaw(root: Agent, graph: seq<Recorded>) returns (r: Option<Agent>)
    requires Ranked(root) && Unambiguous(root) && ClassName(root.cls.name)
    ensures r.Some? <==> Freezable(root) && Unshared(root) && root.decl.name != "" && TypesFound(root, graph)
    ensures r.Some? ==> Ranked(r.value) && fresh(Below(r.value)) && ThawedAs(root, r.value)
    ensures r.Some? ==> TypedFrom(root, r.value, graph)
    ensures r.Some? ==> forall p: Path ::
      Walk(r.value, p).Some? == Walk(root, p).Some? &&
      (Walk(root, p).Some? ==> DeclaredAgain(Walk(root, p).value, Walk(r.value, p).value))
  {
    var pay := Freeze(root, graph);
    if pay.None? {
      return None;
    }
    r := Thaw(pay.value, root);
    if r.Some? {
      forall p: Path
        ensures Walk(r.value, p).Some? == Walk(root, p).Some?
        ensures Walk(root, p).Some? ==> DeclaredAgain(Walk(root, p).value, Walk(r.value, p).value)
      {
        ThawMirrors(root, r.value, p);
      }
    }
  }
}
