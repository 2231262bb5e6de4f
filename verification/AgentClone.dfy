/** `clone()`: a fresh tree of the same shape, whose routing state points into itself. Children are
    cloned once per parent, so sharing below one parent is kept, but an agent attached to two parents
    becomes two; `SharingSurvivesIff` says when all sharing is kept. */
module AgentClone {
  import opened Options
  import opened AgentTrees

  /** The copy is the same value, but a child attached as `k` is replaced by the new child attached
      as `k`. What becomes of an agent that is no child is left open. */
  ghost predicate Copied(v: Value<Agent>, w: Value<Agent>, children: map<string, Agent>, twins: map<string, Agent>)
    decreases v
  {
    match v
    case Atom(_) => w == v
    case Ref(to) => w.Ref? && Twin(to, w.to, children, twins)
    case ListOf(items) => w.ListOf? && |w.items| == |items| &&
      forall i :: 0 <= i < |items| ==> Copied(items[i], w.items[i], children, twins)
    case DictOf(entries) => w.DictOf? && w.entries.Keys == entries.Keys &&
      forall k :: k in entries ==> Copied(entries[k], w.entries[k], children, twins)
    case SetWith(member) => w.SetWith? && Twin(member, w.member, children, twins)
  }

  ghost predicate Twin(c: Agent, d: Agent, children: map<string, Agent>, twins: map<string, Agent>) {
    forall k :: k in children && children[k] == c ==> k in twins && twins[k] == d
  }

  /** `copy.deepcopy(value, memo)`; `foreign` is what it makes of agents that are no children. */
  function Redirect(v: Value<Agent>, memo: map<Agent, Agent>, foreign: Agent -> Agent): Value<Agent>
    decreases v
  {
    match v
    case Atom(_) => v
    case Ref(to) => Ref(if to in memo then memo[to] else foreign(to))
    case ListOf(items) => ListOf(seq(|items|, i requires 0 <= i < |items| => Redirect(items[i], memo, foreign)))
    case DictOf(entries) => DictOf(map k | k in entries :: Redirect(entries[k], memo, foreign))
    case SetWith(member) => SetWith(if member in memo then memo[member] else foreign(member))
  }

  ghost predicate Memoised(memo: map<Agent, Agent>, children: map<string, Agent>, twins: map<string, Agent>) {
    forall k :: k in children ==> k in twins && children[k] in memo && twins[k] == memo[children[k]]
  }

  lemma {:induction false} RedirectCopies(v: Value<Agent>, memo: map<Agent, Agent>, children: map<string, Agent>,
                                          twins: map<string, Agent>, foreign: Agent -> Agent)
    requires Memoised(memo, children, twins)
    ensures Copied(v, Redirect(v, memo, foreign), children, twins)
    decreases v
  {
    match v
    case Atom(_) =>
    case Ref(to) =>
    case ListOf(items) =>
      forall i | 0 <= i < |items|
        ensures Copied(items[i], Redirect(items[i], memo, foreign), children, twins)
      {
        RedirectCopies(items[i], memo, children, twins, foreign);
      }
    case DictOf(entries) =>
      forall k | k in entries
        ensures Copied(entries[k], Redirect(entries[k], memo, foreign), children, twins)
      {
        RedirectCopies(entries[k], memo, children, twins, foreign);
      }
    case SetWith(member) =>
  }

  /** One agent of the copy: class, attribute names and the sharing of children below this
      one parent are kept, and routing values point at the children's copies. */
  ghost predicate Mirrors(a: Agent, b: Agent)
  {
    b.cls == a.cls && b.children.Keys == a.children.Keys &&
    (forall k, l :: k in a.children && l in a.children ==>
      (a.children[k] == a.children[l] <==> b.children[k] == b.children[l])) &&
    b.extras.Keys == (if a.cls.custom then a.extras.Keys else {}) &&
    (a.cls.custom ==> forall n :: n in a.extras ==> Copied(a.extras[n], b.extras[n], a.children, b.children))
  }

  /** `b` is a copy of `a` with declared fields `d`; below it, declared fields are the originals'. */
  ghost predicate Cloned(a: Agent, b: Agent, d: Decl)
    requires Ranked(a) && Ranked(b)
    decreases a.rank
  {
    b.decl == d && b.io == a.io && Mirrors(a, b) &&
    forall k :: k in a.children ==> Cloned(a.children[k], b.children[k], a.children[k].decl)
  }

  /** Different children have nothing in common, at any depth. */
  ghost predicate Separate(b: Agent)
    requires Ranked(b)
    decreases b.rank
  {
    (forall k, l :: k in b.children && l in b.children && b.children[k] != b.children[l] ==>
      Below(b.children[k]) !! Below(b.children[l])) &&
    forall k :: k in b.children ==> Separate(b.children[k])
  }

  method CopyExtras(a: Agent, memo: map<Agent, Agent>, ghost twins: map<string, Agent>, foreign: Agent -> Agent)
    returns (extras: map<string, Value<Agent>>)
    requires Memoised(memo, a.children, twins)
    ensures extras.Keys == (if a.cls.custom then a.extras.Keys else {})
    ensures a.cls.custom ==> forall n :: n in a.extras ==> Copied(a.extras[n], extras[n], a.children, twins)
  {
    extras := map[];
    if a.cls.custom {
      extras := map n | n in a.extras :: Redirect(a.extras[n], memo, foreign);
      forall n | n in a.extras
        ensures Copied(a.extras[n], extras[n], a.children, twins)
      {
        RedirectCopies(a.extras[n], memo, a.children, twins, foreign);
      }
    }
  }

  ghost predicate Injective(memo: map<Agent, Agent>) {
    forall c, d :: c in memo && d in memo && memo[c] == memo[d] ==> c == d
  }

  ghost predicate Copies(memo: map<Agent, Agent>) {
    forall c :: c in memo ==>
      Ranked(c) && Ranked(memo[c]) && Cloned(c, memo[c], c.decl) && Separate(memo[c])
  }

  ghost predicate Apart(memo: map<Agent, Agent>)
    requires Copies(memo)
  {
    forall c, d :: c in memo && d in memo && c != d ==> Below(memo[c]) !! Below(memo[d])
  }

  ghost predicate Within(memo: map<Agent, Agent>, made: set<Agent>)
    requires Copies(memo)
  {
    forall c :: c in memo ==> Below(memo[c]) <= made
  }

  ghost predicate GoodMemo(memo: map<Agent, Agent>, made: set<Agent>) {
    Injective(memo) && Copies(memo) && Apart(memo) && Within(memo, made)
  }

  /** The children, each cloned once, under all names they have; `made` are the agents created. */
  method CloneChildren(a: Agent, foreign: Agent -> Agent)
    returns (memo: map<Agent, Agent>, twins: map<string, Agent>, ghost made: set<Agent>)
    requires Ranked(a)
    ensures twins.Keys == a.children.Keys && Memoised(memo, a.children, twins)
    ensures GoodMemo(memo, made) && fresh(made)
    decreases a.rank, 0
  {
    twins, memo, made := map[], map[], {};
    var todo := a.children.Keys;
    while todo != {}
      invariant todo <= a.children.Keys && twins.Keys == a.children.Keys - todo
      invariant forall k :: k in twins ==> a.children[k] in memo && twins[k] == memo[a.children[k]]
      invariant GoodMemo(memo, made) && fresh(made)
      decreases todo
    {
      var k :| k in todo;
      var child := a.children[k];
      if child !in memo {
        var cloned := Clone(child, None, foreign);
        StillInjective(memo, made, child, cloned);
        CopiesGrow(memo, child, cloned);
        ApartGrows(memo, made, child, cloned);
        memo, made := memo[child := cloned], made + Below(cloned);
      }
      twins := twins[k := memo[child]];
      todo := todo - {k};
    }
  }

  lemma StillInjective(memo: map<Agent, Agent>, made: set<Agent>, child: Agent, cloned: Agent)
    requires Injective(memo) && Copies(memo) && Within(memo, made)
    requires Ranked(cloned) && made !! Below(cloned)
    ensures Injective(memo[child := cloned])
  {
    forall c | c in memo
      ensures memo[c] != cloned
    {
      assert cloned in Below(cloned);
      assert memo[c] in Below(memo[c]);
    }
  }

  lemma CopiesGrow(memo: map<Agent, Agent>, child: Agent, cloned: Agent)
    requires Copies(memo) && Ranked(child) && Ranked(cloned) && Cloned(child, cloned, child.decl) && Separate(cloned)
    ensures Copies(memo[child := cloned])
  {
  }

  lemma ApartGrows(memo: map<Agent, Agent>, made: set<Agent>, child: Agent, cloned: Agent)
    requires Copies(memo) && Apart(memo) && Within(memo, made) && child !in memo
    requires Ranked(cloned) && made !! Below(cloned) && Copies(memo[child := cloned])
    ensures Apart(memo[child := cloned]) && Within(memo[child := cloned], made + Below(cloned))
  {
  }

  /** Putting the cloned children under a new agent. */
  lemma Assembled(a: Agent, b: Agent, d: Decl, memo: map<Agent, Agent>, made: set<Agent>)
    requires Ranked(a) && Ranked(b) && b.decl == d && b.io == a.io && b.cls == a.cls
    requires b.children.Keys == a.children.Keys
    requires Memoised(memo, a.children, b.children) && GoodMemo(memo, made)
    requires b.extras.Keys == (if a.cls.custom then a.extras.Keys else {})
    requires a.cls.custom ==> forall n :: n in a.extras ==> Copied(a.extras[n], b.extras[n], a.children, b.children)
    ensures Cloned(a, b, d) && Separate(b) && Below(b) <= {b} + made
  {
    forall k | k in a.children
      ensures Cloned(a.children[k], b.children[k], a.children[k].decl) && Separate(b.children[k])
    {
      assert b.children[k] == memo[a.children[k]];
    }
    forall k, l | k in b.children && l in b.children && b.children[k] != b.children[l]
      ensures Below(b.children[k]) !! Below(b.children[l])
    {
      assert b.children[k] == memo[a.children[k]] && b.children[l] == memo[a.children[l]];
    }
  }

  function WithContext(d: Decl, context: Option<string>): Decl {
    if context.Some? then d.(context := context.value) else d
  }

  /** `clone(context=...)`. */
  method Clone(a: Agent, context: Option<string>, foreign: Agent -> Agent) returns (b: Agent)
    requires Ranked(a)
    ensures Ranked(b) && fresh(Below(b))
    ensures Cloned(a, b, WithContext(a.decl, context)) && Separate(b)
    ensures b.decl.context == (if context.Some? then context.value else a.decl.context)
    ensures b.decl.(context := "") == a.decl.(context := "")
    decreases a.rank, 1
  {
    var memo, twins, made := CloneChildren(a, foreign);
    var extras := CopyExtras(a, memo, twins, foreign);
    b := new Agent(a.cls, WithContext(a.decl, context), a.io, twins, extras);
    Assembled(a, b, b.decl, memo, made);
  }

  // ---- What a clone keeps ----------------------------------------------------------------

  /** The declared state of the clone is the original's, but for the context asked for. */
  lemma {:induction false} CloneKeepsState(a: Agent, b: Agent, d: Decl)
    requires Ranked(a) && Ranked(b) && Cloned(a, b, d)
    ensures StateOf(b) == StateOf(a).(decl := d)
    decreases a.rank
  {
    forall k | k in a.children
      ensures StateOf(b.children[k]) == StateOf(a.children[k])
    {
      CloneKeepsState(a.children[k], b.children[k], a.children[k].decl);
    }
    assert StateOf(b).children == StateOf(a).children;
  }

  /** At every path the clone has an agent that mirrors the original's: its routing values refer to
      its own children, under the same attributes. */
  lemma {:induction false} CloneMirrors(a: Agent, b: Agent, d: Decl, p: Path)
    requires Ranked(a) && Ranked(b) && Cloned(a, b, d)
    ensures Walk(b, p).Some? == Walk(a, p).Some?
    ensures Walk(a, p).Some? ==> Mirrors(Walk(a, p).value, Walk(b, p).value)
    decreases |p|
  {
    if |p| > 0 && p[0] in a.children {
      CloneMirrors(a.children[p[0]], b.children[p[0]], a.children[p[0]].decl, p[1..]);
    }
  }

  // ---- Which sharing a clone keeps ----------------------------------------------------------

  /** If the two paths lead to one agent, they come from one parent. */
  ghost predicate OneParent(a: Agent, p: Path, q: Path) {
    |p| > 0 && |q| > 0 && Walk(a, p).Some? && Walk(a, p) == Walk(a, q) ==>
      Walk(a, p[..|p| - 1]) == Walk(a, q[..|q| - 1])
  }

  /** No agent is attached to two parents. */
  ghost predicate OneParentEach(a: Agent) {
    forall p: Path, q: Path :: OneParent(a, p, q)
  }

  ghost predicate SameSharing(a: Agent, b: Agent) {
    forall p: Path, q: Path :: Walk(a, p).Some? && Walk(a, q).Some? ==>
      (Walk(a, p) == Walk(a, q) <==> Walk(b, p) == Walk(b, q))
  }

  /** In a tree whose children have nothing in common, two paths to one agent go through the same
      agents. */
  lemma {:induction false} SameParents(b: Agent, p: Path, q: Path)
    requires Ranked(b) && Separate(b) && Walk(b, p).Some? && Walk(b, p) == Walk(b, q)
    ensures |p| == |q| && (|p| > 0 ==> Walk(b, p[..|p| - 1]) == Walk(b, q[..|q| - 1]))
    decreases |p|
  {
    if |p| == 0 || |q| == 0 {
      SelfOnly(b, p);
      SelfOnly(b, q);
    } else {
      var c, d := b.children[p[0]], b.children[q[0]];
      WalkBelow(c, p[1..]);
      WalkBelow(d, q[1..]);
      assert c == d;
      SameParents(c, p[1..], q[1..]);
      if |p| > 1 {
        assert p[..|p| - 1][1..] == p[1..][..|p| - 2] && q[..|q| - 1][1..] == q[1..][..|q| - 2];
      }
    }
  }

  lemma SelfOnly(b: Agent, p: Path)
    requires Ranked(b) && Walk(b, p) == Some(b)
    ensures p == []
  {
    if |p| > 0 {
      WalkBelow(b.children[p[0]], p[1..]);
      BelowRank(b.children[p[0]], b);
    }
  }

  lemma WalkInit(a: Agent, p: Path)
    requires |p| > 0
    ensures Walk(a, p).Some? ==> Walk(a, p[..|p| - 1]).Some? && p[|p| - 1] in Walk(a, p[..|p| - 1]).value.children &&
                                 Walk(a, p).value == Walk(a, p[..|p| - 1]).value.children[p[|p| - 1]]
  {
    var init, last := p[..|p| - 1], p[|p| - 1];
    assert p == init + [last];
    WalkOn(a, init, [last]);
    if Walk(a, init).Some? && last in Walk(a, init).value.children {
      assert Walk(Walk(a, init).value, [last]) == Walk(Walk(a, init).value.children[last], []);
    }
  }

  /** The clone never merges what the original keeps apart. */
  lemma {:induction false} NothingMerged(a: Agent, b: Agent, d: Decl, p: Path, q: Path)
    requires Ranked(a) && Ranked(b) && Cloned(a, b, d) && Separate(b)
    requires Walk(a, p).Some? && Walk(a, q).Some? && Walk(b, p) == Walk(b, q)
    ensures Walk(a, p) == Walk(a, q)
    decreases |p|
  {
    CloneMirrors(a, b, d, p);
    SameParents(b, p, q);
    if |p| > 0 {
      var p', q' := p[..|p| - 1], q[..|q| - 1];
      WalkInit(a, p);
      WalkInit(a, q);
      CloneMirrors(a, b, d, p);
      CloneMirrors(a, b, d, q);
      WalkInit(b, p);
      WalkInit(b, q);
      NothingMerged(a, b, d, p', q');
      CloneMirrors(a, b, d, p');
      assert Mirrors(Walk(a, p').value, Walk(b, p').value);
    }
  }

  lemma {:induction false} NothingSplit(a: Agent, b: Agent, d: Decl, p: Path, q: Path)
    requires Ranked(a) && Ranked(b) && Cloned(a, b, d) && OneParentEach(a)
    requires Walk(a, p).Some? && Walk(a, p) == Walk(a, q)
    ensures Walk(b, p) == Walk(b, q)
    decreases |p|
  {
    if |p| == 0 || |q| == 0 {
      SelfOnly(a, p);
      SelfOnly(a, q);
    } else {
      ParentsAgree(a, p, q);
      NothingSplit(a, b, d, p[..|p| - 1], q[..|q| - 1]);
      WalkInit(a, p);
      WalkInit(a, q);
      ChildrenAgree(a, b, d, p[..|p| - 1], p[|p| - 1], q[|q| - 1]);
      CloneMirrors(a, b, d, p);
      CloneMirrors(a, b, d, q);
      WalkInit(b, p);
      WalkInit(b, q);
    }
  }

  lemma ParentsAgree(a: Agent, p: Path, q: Path)
    requires OneParentEach(a) && |p| > 0 && |q| > 0
    requires Walk(a, p).Some? && Walk(a, p) == Walk(a, q)
    ensures Walk(a, p[..|p| - 1]).Some? && Walk(a, p[..|p| - 1]) == Walk(a, q[..|q| - 1])
  {
    WalkInit(a, p);
    assert OneParent(a, p, q);
  }

  /** The parent's copy gives its two children one copy exactly if they were one agent. */
  lemma ChildrenAgree(a: Agent, b: Agent, d: Decl, p: Path, k: string, l: string)
    requires Ranked(a) && Ranked(b) && Cloned(a, b, d) && Walk(a, p).Some?
    requires k in Walk(a, p).value.children && l in Walk(a, p).value.children
    requires Walk(a, p).value.children[k] == Walk(a, p).value.children[l]
    ensures Walk(b, p).Some? && k in Walk(b, p).value.children && l in Walk(b, p).value.children
    ensures Walk(b, p).value.children[k] == Walk(b, p).value.children[l]
  {
    CloneMirrors(a, b, d, p);
  }

  lemma SharingSurvives(a: Agent, b: Agent, d: Decl)
    requires Ranked(a) && Ranked(b) && Cloned(a, b, d) && Separate(b)
    requires OneParentEach(a)
    ensures SameSharing(a, b)
  {
    forall p: Path, q: Path | Walk(a, p).Some? && Walk(a, q).Some?
      ensures Walk(a, p) == Walk(a, q) <==> Walk(b, p) == Walk(b, q)
    {
      if Walk(a, p) == Walk(a, q) {
        NothingSplit(a, b, d, p, q);
      } else if Walk(b, p) == Walk(b, q) {
        NothingMerged(a, b, d, p, q);
      }
    }
  }

  lemma SharingTells(a: Agent, b: Agent, d: Decl, p: Path, q: Path)
    requires Ranked(a) && Ranked(b) && Cloned(a, b, d) && Separate(b) && SameSharing(a, b)
    ensures OneParent(a, p, q)
  {
    if |p| > 0 && |q| > 0 && Walk(a, p).Some? && Walk(a, p) == Walk(a, q) {
      CloneMirrors(a, b, d, p);
      SameParents(b, p, q);
      WalkInit(a, p);
      WalkInit(a, q);
      NothingMerged(a, b, d, p[..|p| - 1], q[..|q| - 1]);
    }
  }

  /** EXACTLY WHICH SHARING SURVIVES. The clone has the original's sharing if and only if no agent of
      the original is attached to two different parents: one attached to two parents is cloned twice. */
  lemma SharingSurvivesIff(a: Agent, b: Agent, d: Decl)
    requires Ranked(a) && Ranked(b) && Cloned(a, b, d) && Separate(b)
    ensures SameSharing(a, b) <==> OneParentEach(a)
  {
    if OneParentEach(a) {
      SharingSurvives(a, b, d);
    } else if SameSharing(a, b) {
      var p: Path, q: Path :| !OneParent(a, p, q);
      SharingTells(a, b, d, p, q);
    }
  }
}
