/** Agents as objects in memory: declared state, attached children and routing state. */
module AgentTrees {
  import opened Options

  datatype Config = Config(apiKey: Option<string>, rest: int)

  /** A Pydantic class; `name` is its short name, `id` its identity. */
  datatype Type = Type(name: string, id: nat)

  datatype Io = Io(input: Type, output: Type)

  /** `custom`: the class overrides `forward`; `declared`: the types it declares for its instances. */
  datatype Class = Class(name: string, custom: bool, declared: Option<Io>)

  datatype Decl = Decl(
    name: string, role: string, task: string, style: string, context: string,
    rules: seq<string>, examples: seq<int>, config: Option<Config>)

  /** A routing value. `R` is how it refers to an agent: the object itself on a live agent, the
      attribute name of a child in a frozen file. `SetWith` is a set with an agent in it. */
  datatype Value<R> =
    | Atom(int)
    | Ref(to: R)
    | ListOf(items: seq<Value<R>>)
    | DictOf(entries: map<string, Value<R>>)
    | SetWith(member: R)

  type Path = seq<string>

  /** The order in which attributes were attached is left open: children are a map. */
  class Agent {
    const cls: Class
    const decl: Decl
    const io: Io
    const children: map<string, Agent>
    const extras: map<string, Value<Agent>>
    ghost const rank: nat

    constructor (cls: Class, decl: Decl, io: Io, children: map<string, Agent>, extras: map<string, Value<Agent>>)
      requires forall k :: k in children ==> Ranked(children[k])
      ensures this.cls == cls && this.decl == decl && this.io == io
      ensures this.children == children && this.extras == extras
      ensures Ranked(this)
    {
      this.cls, this.decl, this.io, this.children, this.extras := cls, decl, io, children, extras;
      rank := RankOver(children.Values);
    }
  }

  ghost function RankOver(agents: set<Agent>): (r: nat)
    ensures forall a :: a in agents ==> a.rank < r
  {
    if agents == {} then 0
    else
      var a :| a in agents;
      var r := RankOver(agents - {a});
      if a.rank < r then r else a.rank + 1
  }

  /** No agent is attached, at any depth, below itself. */
  ghost predicate Ranked(a: Agent)
    decreases a.rank
  {
    forall k :: k in a.children ==> a.children[k].rank < a.rank && Ranked(a.children[k])
  }

  // ---- Paths ---------------------------------------------------------------------------

  function Walk(a: Agent, p: Path): Option<Agent>
    decreases |p|
  {
    if |p| == 0 then Some(a)
    else if p[0] in a.children then Walk(a.children[p[0]], p[1..])
    else None
  }

  lemma {:induction false} WalkOn(a: Agent, p: Path, q: Path)
    ensures Walk(a, p + q) == if Walk(a, p).Some? then Walk(Walk(a, p).value, q) else None
    decreases |p|
  {
    if |p| == 0 {
      assert p + q == q;
    } else {
      assert (p + q)[0] == p[0] && (p + q)[1..] == p[1..] + q;
      if p[0] in a.children {
        WalkOn(a.children[p[0]], p[1..], q);
      }
    }
  }

  lemma {:induction false} WalkRanked(a: Agent, p: Path)
    requires Ranked(a) && Walk(a, p).Some?
    ensures Ranked(Walk(a, p).value)
    decreases |p|
  {
    if |p| > 0 {
      WalkRanked(a.children[p[0]], p[1..]);
    }
  }

  ghost function Below(a: Agent): set<Agent>
    requires Ranked(a)
    decreases a.rank
  {
    {a} + set k, x | k in a.children && x in Below(a.children[k]) :: x
  }

  lemma {:induction false} WalkBelow(a: Agent, p: Path)
    requires Ranked(a) && Walk(a, p).Some?
    ensures Walk(a, p).value in Below(a)
    decreases |p|
  {
    if |p| > 0 {
      WalkBelow(a.children[p[0]], p[1..]);
    }
  }

  lemma {:induction false} BelowWalk(a: Agent, x: Agent) returns (p: Path)
    requires Ranked(a) && x in Below(a)
    ensures Walk(a, p) == Some(x)
    decreases a.rank
  {
    if x == a {
      p := [];
    } else {
      var k :| k in a.children && x in Below(a.children[k]);
      var q := BelowWalk(a.children[k], x);
      p := [k] + q;
      assert p[1..] == q;
    }
  }

  lemma {:induction false} BelowRank(a: Agent, x: Agent)
    requires Ranked(a) && x in Below(a)
    ensures x.rank <= a.rank && (x != a ==> x.rank < a.rank) && Ranked(x)
    decreases a.rank
  {
    if x != a {
      var k :| k in a.children && x in Below(a.children[k]);
      BelowRank(a.children[k], x);
    }
  }

  /** No agent sits under two attribute paths. */
  ghost predicate Unshared(a: Agent) {
    forall p: Path, q: Path :: Walk(a, p).Some? && Walk(a, p) == Walk(a, q) ==> p == q
  }

  // ---- Declared state ---------------------------------------------------------------------

  datatype State = State(cls: string, decl: Decl, inputName: string, outputName: string, children: map<string, State>)

  /** `Agent.state()`. */
  function StateOf(a: Agent): State
    requires Ranked(a)
    decreases a.rank
  {
    State(a.cls.name, a.decl, a.io.input.name, a.io.output.name, map k | k in a.children :: StateOf(a.children[k]))
  }

  /** The walk a state allows: its own nesting of children. */
  function At(s: State, p: Path): Option<State>
    decreases |p|
  {
    if |p| == 0 then Some(s)
    else if p[0] in s.children then At(s.children[p[0]], p[1..])
    else None
  }

  lemma {:induction false} StateWalk(a: Agent, p: Path)
    requires Ranked(a)
    ensures At(StateOf(a), p).Some? == Walk(a, p).Some?
    ensures Walk(a, p).Some? ==> Ranked(Walk(a, p).value) && At(StateOf(a), p).value == StateOf(Walk(a, p).value)
    ensures Walk(a, p).Some? ==>
      var s, x := At(StateOf(a), p).value, Walk(a, p).value;
      s.cls == x.cls.name && s.decl == x.decl && s.inputName == x.io.input.name && s.outputName == x.io.output.name
      && s.children.Keys == x.children.Keys
    decreases |p|
  {
    if |p| > 0 && p[0] in a.children {
      StateWalk(a.children[p[0]], p[1..]);
    }
  }

  // ---- Paths as the source writes them -------------------------------------------------------

  /** `f"{parent_path}.{attr}"`, from the root's name on. */
  function Dotted(name: string, p: Path): string {
    if |p| == 0 then name else Dotted(name, p[..|p| - 1]) + "." + p[|p| - 1]
  }

  /** Attribute names are identifiers: they hold no dot. */
  ghost predicate Plain(p: Path) {
    forall i :: 0 <= i < |p| ==> '.' !in p[i]
  }

  lemma LastSegment(x: string, s: string, y: string, t: string)
    requires x + "." + s == y + "." + t && '.' !in s && '.' !in t
    ensures x == y && s == t
  {
    var z := x + "." + s;
    assert z[|x|] == '.' && z[|y|] == (y + "." + t)[|y|] == '.';
    forall k | |x| < k < |z|
      ensures z[k] != '.'
    {
      assert z[k] == s[k - |x| - 1] && s[k - |x| - 1] in s;
    }
    forall k | |y| < k < |z|
      ensures z[k] != '.'
    {
      assert z[k] == (y + "." + t)[k] == t[k - |y| - 1] && t[k - |y| - 1] in t;
    }
    assert |x| == |y|;
    assert x == z[..|x|] && y == (y + "." + t)[..|y|];
    assert s == z[|x| + 1..] && t == (y + "." + t)[|y| + 1..];
  }

  lemma {:induction false} DottedLength(name: string, p: Path)
    ensures |Dotted(name, p)| >= |name| + |p|
  {
    if |p| > 0 {
      DottedLength(name, p[..|p| - 1]);
    }
  }

  /** Dotted strings name paths one to one, whatever dots the root's own name has. */
  lemma {:induction false} DottedInjective(name: string, p: Path, q: Path)
    requires Plain(p) && Plain(q) && Dotted(name, p) == Dotted(name, q)
    ensures p == q
    decreases |p|
  {
    DottedLength(name, p);
    DottedLength(name, q);
    if |p| > 0 && |q| > 0 {
      var p', q' := p[..|p| - 1], q[..|q| - 1];
      LastSegment(Dotted(name, p'), p[|p| - 1], Dotted(name, q'), q[|q| - 1]);
      DottedInjective(name, p', q');
      assert p == p' + [p[|p| - 1]] && q == q' + [q[|q| - 1]];
    }
  }
}
