/** `TalkerReasoner`: a conversation that walks a scenario tree one turn at a time. */
module Conversation {
  import opened Options
  import opened ScenarioTree

  datatype Kind = Stay | Advance | Branch | Finish

  datatype Decision = Decision(kind: Kind, branchTo: string)

  datatype Turn = Turn(
    index: nat, message: string, from: string, decision: Decision, to: string, reply: string, terminal: bool)

  /** The two language-model agents, as functions of what they are shown. */
  datatype Agents = Agents(
    decide: (seq<Turn>, string, string) -> Decision,
    speak: (seq<Turn>, string, string) -> string)

  datatype Talk = Talk(current: string, history: seq<Turn>, finished: bool)

  // ---- One turn ------------------------------------------------------------------------------

  function ChildNamed(ns: seq<Node>, id: string): Option<Node> {
    if |ns| == 0 then None else if ns[0].id == id then Some(ns[0]) else ChildNamed(ns[1..], id)
  }

  /** `_apply`: where the decision leads from `n`, and whether that ends the conversation. */
  function Apply(d: Decision, n: Node): (string, bool) {
    match d.kind
    case Finish => (n.id, true)
    case Stay => (n.id, n.terminal)
    case Advance => if |n.children| == 1 then (n.children[0].id, n.children[0].terminal) else (n.id, n.terminal)
    case Branch =>
      var c := ChildNamed(n.children, d.branchTo);
      if c.Some? then (c.value.id, c.value.terminal) else (n.id, n.terminal)
  }

  function TurnFor(root: Node, ag: Agents, t: Talk, message: string): Turn
    requires Find(root, t.current).Some?
  {
    var n := Find(root, t.current).value;
    var d := ag.decide(t.history, n.id, message);
    var (to, terminal) := Apply(d, n);
    Turn(|t.history|, message, n.id, d, to, ag.speak(t.history, to, message), terminal)
  }

  function OneTurn(root: Node, ag: Agents, t: Talk, message: string): Talk
    requires Find(root, t.current).Some?
  {
    var turn := TurnFor(root, ag, t, message);
    Talk(turn.to, t.history + [turn], t.finished || turn.terminal)
  }

  /** `run`: the script is played until it ends, the conversation is finished or the turns are used up. */
  function Run(root: Node, ag: Agents, maxTurns: nat, t: Talk, script: seq<string>): Talk
    requires Find(root, t.current).Some?
    decreases |script|
  {
    if |script| == 0 || t.finished || |t.history| >= maxTurns then t
    else
      TurnStaysInTree(root, ag, t, script[0]);
      Run(root, ag, maxTurns, OneTurn(root, ag, t, script[0]), script[1..])
  }

  lemma {:induction false} ChildNamedIsChild(ns: seq<Node>, id: string)
    ensures ChildNamed(ns, id).Some? ==> ChildNamed(ns, id).value in ns && ChildNamed(ns, id).value.id == id
  {
    if |ns| > 0 && ns[0].id != id {
      ChildNamedIsChild(ns[1..], id);
    }
  }

  lemma {:induction false} ChildListed(ns: seq<Node>, c: Node)
    requires c in ns
    ensures forall x :: x in Ids(c) ==> x in IdsOf(ns)
    decreases ns
  {
    if ns[0] != c {
      ChildListed(ns[1..], c);
    }
  }

  lemma {:induction false} FoundBelow(n: Node, id: string)
    requires Find(n, id).Some?
    ensures forall x :: x in Ids(Find(n, id).value) ==> x in Ids(n)
    decreases n, 1
  {
    if n.id != id {
      FoundBelowIn(n.children, id);
    }
  }

  lemma {:induction false} FoundBelowIn(ns: seq<Node>, id: string)
    requires FindIn(ns, id).Some?
    ensures forall x :: x in Ids(FindIn(ns, id).value) ==> x in IdsOf(ns)
    decreases ns, 0
  {
    if Find(ns[0], id).Some? {
      FoundBelow(ns[0], id);
    } else {
      FoundBelowIn(ns[1..], id);
    }
  }

  /** A decision stays on the node or goes to one of its children. */
  lemma ApplyMoves(d: Decision, n: Node)
    ensures var (to, terminal) := Apply(d, n);
            (to == n.id && terminal == (n.terminal || d.kind == Finish)) ||
            exists c :: c in n.children && to == c.id && terminal == c.terminal && d.kind != Finish
  {
    ChildNamedIsChild(n.children, d.branchTo);
    if d.kind == Advance && |n.children| == 1 {
      assert n.children[0] in n.children;
      assert Apply(d, n) == (n.children[0].id, n.children[0].terminal);
    } else if d.kind == Branch && ChildNamed(n.children, d.branchTo).Some? {
      var c := ChildNamed(n.children, d.branchTo).value;
      assert c in n.children && Apply(d, n) == (c.id, c.terminal);
    }
  }

  /** The first child with this id. */
  ghost predicate FirstNamed(ns: seq<Node>, id: string, i: int) {
    0 <= i < |ns| && ns[i].id == id && forall j :: 0 <= j < i ==> ns[j].id != id
  }

  lemma {:induction false} ChildNamedIsFirst(ns: seq<Node>, id: string)
    ensures ChildNamed(ns, id).None? ==> forall i :: 0 <= i < |ns| ==> ns[i].id != id
    ensures ChildNamed(ns, id).Some? ==> exists i :: FirstNamed(ns, id, i) && ns[i] == ChildNamed(ns, id).value
  {
    if |ns| > 0 {
      ChildNamedIsFirst(ns[1..], id);
      if ns[0].id == id {
        assert FirstNamed(ns, id, 0);
      } else if ChildNamed(ns[1..], id).Some? {
        var i :| FirstNamed(ns[1..], id, i) && ns[1..][i] == ChildNamed(ns[1..], id).value;
        assert forall j :: 0 < j <= i ==> ns[j].id == ns[1..][j - 1].id;
        assert FirstNamed(ns, id, i + 1);
      }
    }
  }

  /** WHERE A DECISION LEADS. To finish ends the conversation on the node. To advance leads to the only
      child, and to branch to the first child with the id given. Everything else stays on the node. */
  lemma DecisionLeads(d: Decision, n: Node)
    ensures var (to, terminal) := Apply(d, n);
      match d.kind
      case Finish => to == n.id && terminal
      case Stay => to == n.id && terminal == n.terminal
      case Advance =>
        && (|n.children| == 1 ==> to == n.children[0].id && terminal == n.children[0].terminal)
        && (|n.children| != 1 ==> to == n.id && terminal == n.terminal)
      case Branch =>
        && (forall i :: FirstNamed(n.children, d.branchTo, i) ==>
              to == n.children[i].id && terminal == n.children[i].terminal)
        && ((forall i :: 0 <= i < |n.children| ==> n.children[i].id != d.branchTo) ==>
              to == n.id && terminal == n.terminal)
  {
    ChildNamedIsFirst(n.children, d.branchTo);
  }

  /** The id a turn leads to is an id of the tree, whatever the navigator answered. */
  lemma TurnStaysInTree(root: Node, ag: Agents, t: Talk, message: string)
    requires Find(root, t.current).Some?
    ensures Find(root, OneTurn(root, ag, t, message).current).Some?
  {
    var n := Find(root, t.current).value;
    var turn := TurnFor(root, ag, t, message);
    ApplyMoves(turn.decision, n);
    FoundBelow(root, t.current);
    if turn.to != n.id {
      var c :| c in n.children && turn.to == c.id;
      ChildListed(n.children, c);
      assert c.id in Ids(c) && c.id in IdsOf(n.children);
      assert Ids(n) == [n.id] + IdsOf(n.children);
    }
    assert turn.to in Ids(n);
    FindIffListed(root, turn.to);
  }

  // ---- What every run keeps -----------------------------------------------------------------------

  /** One recorded turn is one legal step of the tree. */
  ghost predicate LegalTurn(root: Node, turn: Turn) {
    Find(root, turn.from).Some? && Apply(turn.decision, Find(root, turn.from).value) == (turn.to, turn.terminal)
  }

  /** A turn starts where the one before it ended. */
  ghost predicate Linked(history: seq<Turn>, start: string, i: nat)
    requires i < |history|
  {
    history[i].from == if i == 0 then start else history[i - 1].to
  }

  /** The turns are numbered, each starts where the one before ended, and only the last may be
      terminal, which is when the conversation is finished. */
  ghost predicate Chained(root: Node, start: string, maxTurns: nat, t: Talk) {
    |t.history| <= maxTurns &&
    (forall i :: 0 <= i < |t.history| ==> t.history[i].index == i && LegalTurn(root, t.history[i])) &&
    (forall i :: 0 <= i < |t.history| ==> Linked(t.history, start, i)) &&
    (forall i :: 0 <= i < |t.history| - 1 ==> !t.history[i].terminal) &&
    t.current == (if |t.history| == 0 then start else t.history[|t.history| - 1].to) &&
    t.finished == (|t.history| > 0 && t.history[|t.history| - 1].terminal) &&
    Find(root, t.current).Some?
  }

  /** The turn taken from a state is legal, and starts at its current node. */
  lemma TurnIsLegal(root: Node, ag: Agents, t: Talk, message: string)
    requires Find(root, t.current).Some?
    ensures var turn := TurnFor(root, ag, t, message);
      LegalTurn(root, turn) && turn.from == t.current && turn.index == |t.history|
  {
    FindIffListed(root, t.current);
  }

  lemma ChainGrows(root: Node, start: string, maxTurns: nat, t: Talk, turn: Turn)
    requires Chained(root, start, maxTurns, t) && !t.finished && |t.history| < maxTurns
    requires LegalTurn(root, turn) && turn.from == t.current && turn.index == |t.history|
    requires Find(root, turn.to).Some?
    ensures Chained(root, start, maxTurns, Talk(turn.to, t.history + [turn], turn.terminal))
  {
    hide LegalTurn, Find;
    var n, turns := |t.history|, t.history + [turn];
    forall i | 0 <= i < |turns|
      ensures turns[i].index == i && LegalTurn(root, turns[i]) && (i < n ==> !turns[i].terminal)
      ensures Linked(turns, start, i)
    {
      assert turns[i] == if i < n then t.history[i] else turn;
      assert i > 0 ==> turns[i - 1] == t.history[i - 1];
      assert i < n ==> Linked(t.history, start, i);
    }
  }

  lemma TurnKeeps(root: Node, ag: Agents, start: string, maxTurns: nat, t: Talk, message: string)
    requires Chained(root, start, maxTurns, t) && !t.finished && |t.history| < maxTurns
    ensures Chained(root, start, maxTurns, OneTurn(root, ag, t, message))
  {
    hide Find, Apply, TurnFor, LegalTurn;
    TurnStaysInTree(root, ag, t, message);
    TurnIsLegal(root, ag, t, message);
    ChainGrows(root, start, maxTurns, t, TurnFor(root, ag, t, message));
  }

  /** EVERY RUN IS A WALK. Any script, any navigator, any talker. */
  lemma {:induction false} RunKeeps(root: Node, ag: Agents, start: string, maxTurns: nat, t: Talk, script: seq<string>)
    requires Chained(root, start, maxTurns, t)
    ensures Chained(root, start, maxTurns, Run(root, ag, maxTurns, t, script))
    decreases |script|
  {
    if |script| > 0 && !t.finished && |t.history| < maxTurns {
      TurnStaysInTree(root, ag, t, script[0]);
      TurnKeeps(root, ag, start, maxTurns, t, script[0]);
      RunKeeps(root, ag, start, maxTurns, OneTurn(root, ag, t, script[0]), script[1..]);
    }
  }

  lemma {:induction false} RunExtends(root: Node, ag: Agents, maxTurns: nat, t: Talk, script: seq<string>)
    requires Find(root, t.current).Some?
    ensures t.history <= Run(root, ag, maxTurns, t, script).history
    decreases |script|
  {
    if |script| > 0 && !t.finished && |t.history| < maxTurns {
      TurnStaysInTree(root, ag, t, script[0]);
      RunExtends(root, ag, maxTurns, OneTurn(root, ag, t, script[0]), script[1..]);
    }
  }

  /** The turn was decided where it started, on the turns before it, and spoken for where it leads. */
  ghost predicate Told(ag: Agents, history: seq<Turn>, i: nat)
    requires i < |history|
  {
    && history[i].decision == ag.decide(history[..i], history[i].from, history[i].message)
    && history[i].reply == ag.speak(history[..i], history[i].to, history[i].message)
  }

  ghost predicate AllTold(ag: Agents, history: seq<Turn>, n: nat) {
    forall i :: n <= i < |history| ==> Told(ag, history, i)
  }

  lemma TurnIsTold(root: Node, ag: Agents, t: Talk, message: string)
    requires Find(root, t.current).Some?
    ensures var h := OneTurn(root, ag, t, message).history; |h| == |t.history| + 1 && Told(ag, h, |t.history|)
  {
    var h := OneTurn(root, ag, t, message).history;
    assert h[..|t.history|] == t.history;
    FindIffListed(root, t.current);
  }

  lemma ToldStays(ag: Agents, h: seq<Turn>, longer: seq<Turn>, i: nat)
    requires h <= longer && i < |h| && Told(ag, h, i)
    ensures Told(ag, longer, i)
  {
    assert longer[..i] == h[..i];
  }

  /** WHO SAYS WHAT: every turn that a run adds is decided and spoken by the two agents, each shown the
      turns before it. */
  lemma {:induction false} RunIsTold(root: Node, ag: Agents, maxTurns: nat, t: Talk, script: seq<string>)
    requires Find(root, t.current).Some?
    ensures AllTold(ag, Run(root, ag, maxTurns, t, script).history, |t.history|)
    decreases |script|
  {
    if |script| > 0 && !t.finished && |t.history| < maxTurns {
      hide Told, Find, TurnFor;
      TurnStaysInTree(root, ag, t, script[0]);
      var t' := OneTurn(root, ag, t, script[0]);
      TurnIsTold(root, ag, t, script[0]);
      RunIsTold(root, ag, maxTurns, t', script[1..]);
      RunExtends(root, ag, maxTurns, t', script[1..]);
      ToldStays(ag, t'.history, Run(root, ag, maxTurns, t', script[1..]).history, |t.history|);
    }
  }

  /** The turns a run adds answer the script's messages in order. */
  ghost predicate Answers(before: seq<Turn>, all: seq<Turn>, script: seq<string>) {
    forall i :: |before| <= i < |all| && i - |before| < |script| ==> all[i].message == script[i - |before|]
  }

  /** A run stops for one of three reasons only, and uses one message a turn. */
  lemma {:induction false} RunStops(root: Node, ag: Agents, maxTurns: nat, t: Talk, script: seq<string>)
    requires Find(root, t.current).Some? && |t.history| <= maxTurns
    ensures var r := Run(root, ag, maxTurns, t, script);
            |r.history| <= |t.history| + |script| && Answers(t.history, r.history, script) &&
            (|r.history| < |t.history| + |script| ==> r.finished || |r.history| == maxTurns)
    decreases |script|
  {
    if |script| > 0 && !t.finished && |t.history| < maxTurns {
      TurnStaysInTree(root, ag, t, script[0]);
      var t' := OneTurn(root, ag, t, script[0]);
      RunStops(root, ag, maxTurns, t', script[1..]);
      RunExtends(root, ag, maxTurns, t', script[1..]);
      OneMessageMore(t.history, t'.history, Run(root, ag, maxTurns, t', script[1..]).history, script);
    }
  }

  lemma OneMessageMore(before: seq<Turn>, after: seq<Turn>, all: seq<Turn>, script: seq<string>)
    requires |script| > 0 && |after| == |before| + 1 && after[|before|].message == script[0] && after <= all
    requires Answers(after, all, script[1..])
    ensures Answers(before, all, script)
  {
    forall i | |before| <= i < |all| && i - |before| < |script|
      ensures all[i].message == script[i - |before|]
    {
      if i == |before| {
        assert all[i] == after[i];
      } else {
        assert all[i].message == script[1..][i - |after|];
      }
    }
  }

  // ---- How far a conversation can get ---------------------------------------------------------------

  function Height(n: Node): nat
    decreases n, 1
  {
    HeightOf(n.children)
  }

  /** 0 for no children, else one more than the tallest child. */
  function HeightOf(ns: seq<Node>): nat
    decreases ns, 0
  {
    if |ns| == 0 then 0
    else
      var a, b := Height(ns[0]) + 1, HeightOf(ns[1..]);
      if a < b then b else a
  }

  lemma {:induction false} ChildIsLower(ns: seq<Node>, c: Node)
    requires c in ns
    ensures Height(c) < HeightOf(ns)
    decreases ns
  {
    if ns[0] != c {
      ChildIsLower(ns[1..], c);
    }
  }

  function Moves(history: seq<Turn>): nat {
    if |history| == 0 then 0
    else Moves(history[..|history| - 1]) + (if history[|history| - 1].from != history[|history| - 1].to then 1 else 0)
  }

  /** With unique ids, lookup by a child's id from the root leads to that child. */
  lemma {:induction false} FindsChild(n: Node, id: string, c: Node)
    requires Distinct(Ids(n)) && Find(n, id).Some? && c in Find(n, id).value.children
    ensures Find(n, c.id) == Some(c)
    decreases n, 1
  {
    DistinctSplits([n.id], IdsOf(n.children));
    assert n.id in [n.id];
    if n.id == id {
      ChildListed(n.children, c);
      FindsAmong(n.children, c);
    } else {
      FindsChildIn(n.children, id, c);
      FindInIffListed(n.children, c.id);
    }
  }

  lemma {:induction false} FindsAmong(ns: seq<Node>, c: Node)
    requires Distinct(IdsOf(ns)) && c in ns
    ensures FindIn(ns, c.id) == Some(c)
    decreases ns
  {
    DistinctSplits(Ids(ns[0]), IdsOf(ns[1..]));
    FindIffListed(ns[0], c.id);
    if ns[0] != c {
      ChildListed(ns[1..], c);
      FindsAmong(ns[1..], c);
    }
  }

  lemma {:induction false} FindsChildIn(ns: seq<Node>, id: string, c: Node)
    requires Distinct(IdsOf(ns)) && FindIn(ns, id).Some? && c in FindIn(ns, id).value.children
    ensures FindIn(ns, c.id) == Some(c)
    decreases ns, 0
  {
    DistinctSplits(Ids(ns[0]), IdsOf(ns[1..]));
    FindIffListed(ns[0], c.id);
    if Find(ns[0], id).Some? {
      FindsChild(ns[0], id, c);
    } else {
      FindsChildIn(ns[1..], id, c);
      FindInIffListed(ns[1..], c.id);
    }
  }

  /** A turn that moves goes down by one level at least. */
  lemma TurnDescends(root: Node, ag: Agents, t: Talk, message: string)
    requires Distinct(Ids(root)) && Find(root, t.current).Some?
    ensures var n, t' := Find(root, t.current).value, OneTurn(root, ag, t, message);
            Find(root, t'.current).Some? && Height(Find(root, t'.current).value) <= Height(n) &&
            (t'.current != n.id ==> Height(Find(root, t'.current).value) < Height(n))
  {
    var n := Find(root, t.current).value;
    var turn := TurnFor(root, ag, t, message);
    FindIffListed(root, t.current);
    ApplyMoves(turn.decision, n);
    if turn.to != n.id {
      var c :| c in n.children && turn.to == c.id;
      FindsChild(root, t.current, c);
      ChildIsLower(n.children, c);
    }
  }

  lemma MovesSnoc(history: seq<Turn>, turn: Turn)
    ensures Moves(history + [turn]) == Moves(history) + if turn.from != turn.to then 1 else 0
  {
    assert (history + [turn])[..|history|] == history;
  }

  /** A CONVERSATION ONLY GOES DOWN. With unique ids, the moves of a run, whatever the navigator
      answers, are at most the height of the node it starts from. */
  lemma {:induction false} MovesBounded(root: Node, ag: Agents, maxTurns: nat, t: Talk, script: seq<string>)
    requires Distinct(Ids(root)) && Find(root, t.current).Some?
    ensures var r := Run(root, ag, maxTurns, t, script);
            Find(root, r.current).Some? &&
            Moves(r.history) + Height(Find(root, r.current).value) <=
            Moves(t.history) + Height(Find(root, t.current).value)
    decreases |script|
  {
    if |script| > 0 && !t.finished && |t.history| < maxTurns {
      TurnStaysInTree(root, ag, t, script[0]);
      TurnDescends(root, ag, t, script[0]);
      MovesSnoc(t.history, TurnFor(root, ag, t, script[0]));
      MovesBounded(root, ag, maxTurns, OneTurn(root, ag, t, script[0]), script[1..]);
    }
  }

  // ---- The object -------------------------------------------------------------------------------------

  datatype StepError = Finished | OutOfTurns

  class TalkerReasoner {
    const tree: Node
    const agents: Agents
    const maxTurns: nat
    var currentId: string
    var history: seq<Turn>
    var finished: bool
    ghost var start: string

    ghost function View(): Talk
      reads this
    {
      Talk(currentId, history, finished)
    }

    ghost predicate Valid()
      reads this
    {
      maxTurns >= 1 && Chained(tree, start, maxTurns, View())
    }

    constructor (tree: Node, agents: Agents, startId: string, maxTurns: nat)
      requires maxTurns >= 1 && Find(tree, startId).Some?
      ensures Valid() && this.tree == tree && this.agents == agents && this.maxTurns == maxTurns
      ensures View() == Talk(startId, [], false)
    {
      this.tree, this.agents, this.maxTurns := tree, agents, maxTurns;
      currentId, history, finished, start := startId, [], false, startId;
    }

    /** `TalkerReasoner(...)`; `null` stands for its ValueError. */
    static method Make(tree: Node, agents: Agents, startId: Option<string>, maxTurns: int)
      returns (r: TalkerReasoner?)
      ensures r == null <==> maxTurns < 1 || (startId.Some? && Find(tree, startId.value).None?)
      ensures r != null ==> fresh(r) && r.Valid() && r.tree == tree && r.agents == agents && r.maxTurns == maxTurns
      ensures r != null ==>
        r.View() == Talk(if startId.Some? && startId.value != "" then startId.value else tree.id, [], false)
    {
      if maxTurns < 1 || (startId.Some? && Find(tree, startId.value).None?) {
        return null;
      }
      r := new TalkerReasoner(tree, agents, if startId.Some? && startId.value != "" then startId.value else tree.id,
        maxTurns);
    }

    /** `ok` is false for the ValueError of an unknown node; nothing is changed then. */
    method Reset(startId: Option<string>) returns (ok: bool)
      requires Valid()
      modifies this
      ensures Valid()
      ensures var target := if startId.Some? && startId.value != "" then startId.value else tree.id;
              ok == Find(tree, target).Some? &&
              View() == if ok then Talk(target, [], false) else old(View())
    {
      var target := if startId.Some? && startId.value != "" then startId.value else tree.id;
      ok := Find(tree, target).Some?;
      if ok {
        currentId, history, finished, start := target, [], false, target;
      }
    }

    method TakeTurn(message: string) returns (turn: Turn)
      requires Valid() && !finished && |history| < maxTurns
      modifies this
      ensures Valid() && View() == OneTurn(tree, agents, old(View()), message)
      ensures turn == TurnFor(tree, agents, old(View()), message)
    {
      TurnKeeps(tree, agents, start, maxTurns, View(), message);
      var node := Find(tree, currentId).value;
      var decision := agents.decide(history, node.id, message);
      var (target, becameTerminal) := Apply(decision, node);
      turn := Turn(|history|, message, node.id, decision, target,
                   agents.speak(history, target, message), becameTerminal);
      history := history + [turn];
      currentId := target;
      if becameTerminal {
        finished := true;
      }
    }

    method Step(message: string) returns (turn: Option<Turn>, error: Option<StepError>)
      requires Valid()
      modifies this
      ensures Valid() && (turn.Some? <==> error.None?)
      ensures error == if old(finished) then Some(Finished)
                       else if |old(history)| >= maxTurns then Some(OutOfTurns) else None
      ensures View() == if error.Some? then old(View()) else OneTurn(tree, agents, old(View()), message)
    {
      turn := None;
      if finished {
        return None, Some(Finished);
      }
      if |history| >= maxTurns {
        return None, Some(OutOfTurns);
      }
      var t := TakeTurn(message);
      return Some(t), None;
    }

    method RunScript(script: seq<string>)
      requires Valid()
      modifies this
      ensures Valid() && View() == Run(tree, agents, maxTurns, old(View()), script)
    {
      ghost var t := View();
      var i := 0;
      while i < |script| && !finished && |history| < maxTurns
        invariant 0 <= i <= |script| && Valid()
        invariant Run(tree, agents, maxTurns, View(), script[i..]) == Run(tree, agents, maxTurns, t, script)
      {
        assert script[i..][1..] == script[i + 1..];
        var turn := TakeTurn(script[i]);
        i := i + 1;
      }
    }
  }
}
