/** Waiters are served first in, first out. */
module WaiterOrder {
  import opened Options
  import opened SlidingWindow
  import opened SlotProtocol

  // ---- Two waiters on one counter -----------------------------------------------------------------

  /** Wherever `u` is queued, `t` is queued before. */
  ghost predicate Behind(ws: seq<Waiter>, t: nat, u: nat) {
    forall j :: 0 <= j < |ws| && ws[j].fut == u ==> Queued(ws, j, t)
  }

  ghost predicate IsPending(futs: map<nat, FutureState>, t: nat) {
    t in futs && futs[t].Pending?
  }

  ghost predicate IsResolved(futs: map<nat, FutureState>, t: nat) {
    t in futs && futs[t].Resolved?
  }

  /** As long as `t` waits, `u` waits behind it. */
  ghost predicate Waits(ws: seq<Waiter>, futs: map<nat, FutureState>, t: nat, u: nat) {
    IsPending(futs, t) ==> Behind(ws, t, u) && !IsResolved(futs, u)
  }

  lemma {:induction false} WokenKeepsOrder(current: int, limit: int, ws: seq<Waiter>, futs: map<nat, FutureState>,
                                           t: nat, u: nat)
    requires t != u && Waits(ws, futs, t, u)
    ensures var (ws', futs') := Woken(current, limit, ws, futs); Waits(ws', futs', t, u)
    decreases |ws|
  {
    if |ws| > 0 && current + ws[0].need <= limit {
      var f := ws[0].fut;
      var mid := if f in futs && futs[f].Pending? then futs[f := Resolved] else futs;
      if IsPending(mid, t) {
        assert !Queued(ws, 0, t);
        BehindTail(ws, t, u);
      }
      WokenKeepsOrder(current + ws[0].need, limit, ws[1..], mid, t, u);
    }
  }

  lemma BehindTail(ws: seq<Waiter>, t: nat, u: nat)
    requires |ws| > 0 && Behind(ws, t, u) && ws[0].fut != t
    ensures Behind(ws[1..], t, u)
  {
    forall j | 0 <= j < |ws| - 1 && ws[1..][j].fut == u
      ensures Queued(ws[1..], j, t)
    {
      assert ws[j + 1].fut == u;
      QueuedShifts(ws, j, t);
    }
  }

  lemma BehindAppend(ws: seq<Waiter>, w: Waiter, t: nat, u: nat)
    requires Behind(ws, t, u) && w.fut != u
    ensures Behind(ws + [w], t, u)
  {
    forall j | 0 <= j < |ws + [w]| && (ws + [w])[j].fut == u
      ensures Queued(ws + [w], j, t)
    {
      assert Queued(ws, j, t);
      var i :| 0 <= i < j && ws[i].fut == t;
      assert (ws + [w])[i].fut == t;
    }
  }

  lemma {:induction false} RemovedAt(ws: seq<Waiter>, w: Waiter) returns (n: nat)
    ensures n <= |ws| && (n < |ws| ==> ws[n] == w)
    ensures RemoveFirst(ws, w) == if n < |ws| then ws[..n] + ws[n + 1..] else ws
  {
    if |ws| == 0 || ws[0] == w {
      n := 0;
    } else {
      var k := RemovedAt(ws[1..], w);
      n := k + 1;
    }
  }

  /** When another waiter leaves the queue, the order of the two stays. */
  lemma BehindRemove(ws: seq<Waiter>, w: Waiter, t: nat, u: nat)
    requires Behind(ws, t, u) && w.fut != t
    ensures Behind(RemoveFirst(ws, w), t, u)
  {
    var n := RemovedAt(ws, w);
    var less := RemoveFirst(ws, w);
    forall j | 0 <= j < |less| && less[j].fut == u
      ensures Queued(less, j, t)
    {
      var j' := if n < |ws| && j >= n then j + 1 else j;
      assert ws[j'] == less[j] && Queued(ws, j', t);
      var i' :| 0 <= i' < j' && ws[i'].fut == t;
      var i := if n < |ws| && i' > n then i' - 1 else i';
      assert less[i].fut == t;
    }
  }

  ghost predicate CounterWaits(c: Counter, t: nat, u: nat) {
    Waits(c.waiters, c.futures, t, u)
  }

  lemma WakeKeepsOrder(c: Counter, now: real, t: nat, u: nat)
    requires t != u && CounterWaits(c, t, u)
    ensures CounterWaits(Wake(c, now), t, u)
  {
    if |c.waiters| > 0 {
      WokenKeepsOrder(Total(Expired(c.events, now)), c.limit, c.waiters, c.futures, t, u);
    }
  }

  lemma ChargeKeepsOrder(c: Counter, amount: int, now: real, t: nat, u: nat)
    requires t != u && CounterWaits(c, t, u)
    ensures CounterWaits(Charge(c, amount, now), t, u)
  {
    if c.limit != 0 && amount > 0 {
      WakeKeepsOrder(c.(events := Expired(c.events, now) + [Event(now, amount)]), now, t, u);
    }
  }

  lemma SettleKeepsOrder(c: Counter, reserved: int, tokens: int, now: real, t: nat, u: nat)
    requires t != u && CounterWaits(c, t, u)
    ensures CounterWaits(SettleOn(c, reserved, tokens, now), t, u)
  {
    if reserved != 0 && c.limit != 0 && reserved > 0 {
      WakeKeepsOrder(c.(events := Refunded(c.events, reserved)), now, t, u);
    }
    var c1 := if reserved != 0 then Refund(c, reserved, now) else c;
    ChargeKeepsOrder(c1, tokens, now, t, u);
  }

  lemma AcquireKeepsOrder(c: Counter, amount: int, now: real, f: nat, t: nat, u: nat)
    requires t != u && f != t && f != u && CounterWaits(c, t, u)
    ensures CounterWaits(Acquire(c, amount, now, f).0, t, u)
  {
    if IsPending(c.futures, t) {
      BehindAppend(c.waiters, Waiter(amount, f), t, u);
    }
  }

  lemma ForgetKeepsOrder(c: Counter, amount: int, f: nat, t: nat, u: nat)
    requires CounterWaits(c, t, u) && (f == t ==> !IsPending(c.futures, t))
    ensures CounterWaits(Forget(c, amount, f), t, u)
  {
    if IsPending(c.futures, t) {
      BehindRemove(c.waiters, Waiter(amount, f), t, u);
    }
  }

  // ---- Every run -----------------------------------------------------------------------------------

  datatype Gate = Rpm | Tpm

  function CounterAt(s: State, gate: Gate): Option<Counter> {
    if gate.Rpm? then s.rpm else s.tpm
  }

  /** The task has asked at the gate; it will not ask again. */
  ghost predicate HasAsked(s: State, gate: Gate, t: Task) {
    t in s.phase && !s.phase[t].Entered? && (gate.Tpm? ==> !s.phase[t].RpmWait? && !s.phase[t].RpmPassed?)
  }

  ghost predicate InLine(s: State, gate: Gate, t: Task, u: Task) {
    && HasAsked(s, gate, t) && HasAsked(s, gate, u)
    && CounterAt(s, gate).Some? && CounterWaits(CounterAt(s, gate).value, t, u)
  }

  lemma AskedStays(s: State, step: Step, gate: Gate, t: Task)
    requires Enabled(s, step) && HasAsked(s, gate, t)
    ensures HasAsked(Take(s, step), gate, t)
  {
  }

  lemma RpmStepInLine(s: State, step: Step, t: Task, u: Task)
    requires t != u && Enabled(s, step) && InLine(s, Rpm, t, u)
    ensures Take(s, step).rpm.Some? && CounterWaits(Take(s, step).rpm.value, t, u)
  {
    var c := s.rpm.value;
    match step {
      case SetRpm(limit) => WakeKeepsOrder(c.(limit := limit), s.now, t, u);
      case RpmAcquire(x) =>
        AcquireKeepsOrder(c, 1, s.now, x, t, u);
        ChargeKeepsOrder(Acquire(c, 1, s.now, x).0, 1, s.now, t, u);
      case RpmResume(_) => ChargeKeepsOrder(c, 1, s.now, t, u);
      case Abort(x) =>
        if s.phase[x].RpmWait? {
          ForgetKeepsOrder(c, 1, x, t, u);
        }
      case _ =>
    }
  }

  lemma TpmStepInLine(s: State, step: Step, t: Task, u: Task)
    requires t != u && Enabled(s, step) && InLine(s, Tpm, t, u)
    ensures Take(s, step).tpm.Some? && CounterWaits(Take(s, step).tpm.value, t, u)
  {
    var c := s.tpm.value;
    match step {
      case SetTpm(limit) => WakeKeepsOrder(c.(limit := limit), s.now, t, u);
      case TpmAcquire(x, maxTokens) =>
        var reserve := ProvisionalReserve(maxTokens);
        AcquireKeepsOrder(c, reserve, s.now, x, t, u);
        ChargeKeepsOrder(Acquire(c, reserve, s.now, x).0, reserve, s.now, t, u);
      case TpmResume(x) => ChargeKeepsOrder(c, s.phase[x].reserve, s.now, t, u);
      case Abort(x) =>
        if s.phase[x].TpmWait? {
          ForgetKeepsOrder(c, s.phase[x].reserve, x, t, u);
        }
      case Settle(x, tokens) => SettleKeepsOrder(c, s.phase[x].token.reserved, tokens, s.now, t, u);
      case Leave(x) => SettleKeepsOrder(c, s.phase[x].token.reserved, 0, s.now, t, u);
      case _ =>
    }
  }

  lemma {:induction false} StaysInLine(s: State, steps: seq<Step>, gate: Gate, t: Task, u: Task)
    requires t != u && Legal(s, steps) && InLine(s, gate, t, u)
    ensures InLine(After(s, steps), gate, t, u)
    decreases |steps|
  {
    if |steps| > 0 {
      AskedStays(s, steps[0], gate, t);
      AskedStays(s, steps[0], gate, u);
      if gate.Rpm? {
        RpmStepInLine(s, steps[0], t, u);
      } else {
        TpmStepInLine(s, steps[0], t, u);
      }
      StaysInLine(Take(s, steps[0]), steps[1..], gate, t, u);
    }
  }

  /** From a state whose queue lists each task once: the later of two tasks in it is granted nothing for
      as long as the earlier one still waits. */
  lemma StaysBehind(s: State, steps: seq<Step>, gate: Gate, i: nat, j: nat)
    requires Legal(s, steps) && CounterAt(s, gate).Some?
    requires i < j < |CounterAt(s, gate).value.waiters|
    requires forall k, l :: 0 <= k < l < |CounterAt(s, gate).value.waiters| ==>
      CounterAt(s, gate).value.waiters[k].fut != CounterAt(s, gate).value.waiters[l].fut
    requires var t, u := CounterAt(s, gate).value.waiters[i].fut, CounterAt(s, gate).value.waiters[j].fut;
      HasAsked(s, gate, t) && HasAsked(s, gate, u) && !FutureOf(CounterAt(s, gate), u).Resolved?
    ensures var t, u := CounterAt(s, gate).value.waiters[i].fut, CounterAt(s, gate).value.waiters[j].fut;
      var c := CounterAt(After(s, steps), gate);
      c.Some? && (IsPending(c.value.futures, t) ==> !IsResolved(c.value.futures, u))
  {
    var ws := CounterAt(s, gate).value.waiters;
    assert Queued(ws, j, ws[i].fut);
    StaysInLine(s, steps, gate, ws[i].fut, ws[j].fut);
  }
}
