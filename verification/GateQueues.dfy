/** The queues at both gates, over every run from the start. */
module GateQueues {
  import opened Options
  import opened SlidingWindow
  import opened SlotProtocol
  import opened WaiterOrder

  // ---- What every reachable queue looks like -----------------------------------------------------

  /** The task of the waiter is suspended at the gate with this request. */
  ghost predicate Suspended(phase: map<Task, Phase>, gate: Gate, w: Waiter) {
    && w.fut in phase && w.need >= 1
    && match gate
       case Rpm => phase[w.fut].RpmWait? && w.need == 1
       case Tpm => phase[w.fut].TpmWait? && w.need == phase[w.fut].reserve
  }

  ghost predicate Once(ws: seq<Waiter>) {
    forall i, j :: 0 <= i < j < |ws| ==> ws[i].fut != ws[j].fut
  }

  ghost predicate Waiting(phase: map<Task, Phase>, gate: Gate, futs: map<nat, FutureState>, w: Waiter) {
    Suspended(phase, gate, w) && w.fut in futs && !futs[w.fut].Resolved?
  }

  /** Each queued task is listed once, is suspended at this gate and has no grant. */
  ghost predicate Orderly(ws: seq<Waiter>, futs: map<nat, FutureState>, phase: map<Task, Phase>, gate: Gate) {
    Once(ws) && forall i :: 0 <= i < |ws| ==> Waiting(phase, gate, futs, ws[i])
  }

  ghost predicate OrderlyCounter(c: Counter, phase: map<Task, Phase>, gate: Gate) {
    Positive(c.events) && Orderly(c.waiters, c.futures, phase, gate)
  }

  ghost predicate OrderlyState(s: State) {
    (s.rpm.Some? ==> OrderlyCounter(s.rpm.value, s.phase, Rpm)) &&
    (s.tpm.Some? ==> OrderlyCounter(s.tpm.value, s.phase, Tpm))
  }

  lemma WokenOrderly(current: int, limit: int, ws: seq<Waiter>, futs: map<nat, FutureState>,
                     phase: map<Task, Phase>, gate: Gate)
    requires Orderly(ws, futs, phase, gate)
    ensures var (ws', futs') := Woken(current, limit, ws, futs); Orderly(ws', futs', phase, gate)
  {
    var n := WokenIsPrefix(current, limit, ws, futs);
    var (ws', futs') := Woken(current, limit, ws, futs);
    forall i | 0 <= i < |ws'|
      ensures Waiting(phase, gate, futs', ws'[i])
    {
      assert ws'[i] == ws[n + i] && Waiting(phase, gate, futs, ws[n + i]);
      assert !Queued(ws, n, ws[n + i].fut);
    }
  }

  lemma {:induction false} ExpiredPositive(ev: seq<Event>, now: real)
    requires Positive(ev)
    ensures Positive(Expired(ev, now))
    decreases |ev|
  {
    if |ev| > 0 && ev[0].ts < now - WINDOW_SECONDS {
      ExpiredPositive(ev[1..], now);
    }
  }

  lemma {:induction false} RefundedPositive(ev: seq<Event>, amount: int)
    requires Positive(ev)
    ensures Positive(Refunded(ev, amount))
    decreases |ev|
  {
    if amount > 0 && |ev| > 0 && ev[|ev| - 1].n <= amount {
      RefundedPositive(ev[..|ev| - 1], amount - ev[|ev| - 1].n);
    }
  }

  lemma WakeOrderly(c: Counter, now: real, phase: map<Task, Phase>, gate: Gate)
    requires OrderlyCounter(c, phase, gate)
    ensures OrderlyCounter(Wake(c, now), phase, gate)
  {
    ExpiredPositive(c.events, now);
    if |c.waiters| > 0 {
      WokenOrderly(Total(Expired(c.events, now)), c.limit, c.waiters, c.futures, phase, gate);
    }
  }

  lemma ChargeOrderly(c: Counter, amount: int, now: real, phase: map<Task, Phase>, gate: Gate)
    requires OrderlyCounter(c, phase, gate)
    ensures OrderlyCounter(Charge(c, amount, now), phase, gate)
  {
    if c.limit != 0 && amount > 0 {
      ExpiredPositive(c.events, now);
      WakeOrderly(c.(events := Expired(c.events, now) + [Event(now, amount)]), now, phase, gate);
    }
  }

  lemma SettleOrderly(c: Counter, reserved: int, tokens: int, now: real, phase: map<Task, Phase>, gate: Gate)
    requires OrderlyCounter(c, phase, gate)
    ensures OrderlyCounter(SettleOn(c, reserved, tokens, now), phase, gate)
  {
    RefundedPositive(c.events, reserved);
    if reserved > 0 && c.limit != 0 {
      WakeOrderly(c.(events := Refunded(c.events, reserved)), now, phase, gate);
    }
    ChargeOrderly(if reserved != 0 then Refund(c, reserved, now) else c, tokens, now, phase, gate);
  }

  /** A task that is not suspended at the gate is not in its queue, and may go on. */
  lemma OthersMove(c: Counter, phase: map<Task, Phase>, gate: Gate, x: Task, p: Phase)
    requires OrderlyCounter(c, phase, gate)
    requires forall i :: 0 <= i < |c.waiters| ==> c.waiters[i].fut != x
    ensures OrderlyCounter(c, phase[x := p], gate)
  {
    forall i | 0 <= i < |c.waiters|
      ensures Waiting(phase[x := p], gate, c.futures, c.waiters[i])
    {
      assert Waiting(phase, gate, c.futures, c.waiters[i]);
    }
  }

  lemma NotQueued(c: Counter, phase: map<Task, Phase>, gate: Gate, x: Task)
    requires OrderlyCounter(c, phase, gate)
    requires || x !in phase || (gate.Rpm? && !phase[x].RpmWait?) || (gate.Tpm? && !phase[x].TpmWait?)
             || IsResolved(c.futures, x)
    ensures forall i :: 0 <= i < |c.waiters| ==> c.waiters[i].fut != x
  {
    forall i | 0 <= i < |c.waiters|
      ensures c.waiters[i].fut != x
    {
      assert Waiting(phase, gate, c.futures, c.waiters[i]);
    }
  }

  lemma AcquireOrderly(c: Counter, amount: int, now: real, x: Task, phase: map<Task, Phase>, gate: Gate, p: Phase)
    requires OrderlyCounter(c, phase, gate) && forall i :: 0 <= i < |c.waiters| ==> c.waiters[i].fut != x
    requires amount >= 1 && Suspended(phase[x := p], gate, Waiter(amount, x))
    ensures var (d, admitted) := Acquire(c, amount, now, x);
            if admitted then OrderlyCounter(d, phase, gate) && d.waiters == c.waiters
            else OrderlyCounter(d, phase[x := p], gate)
  {
    ExpiredPositive(c.events, now);
    var (d, admitted) := Acquire(c, amount, now, x);
    if !admitted {
      OthersMove(c, phase, gate, x, p);
      forall i | 0 <= i < |d.waiters|
        ensures Waiting(phase[x := p], gate, d.futures, d.waiters[i])
      {
        if i < |c.waiters| {
          assert Waiting(phase[x := p], gate, c.futures, c.waiters[i]) && c.waiters[i].fut != x;
        }
      }
    }
  }

  lemma OnceRemoved(ws: seq<Waiter>, w: Waiter)
    requires Once(ws)
    ensures Once(RemoveFirst(ws, w))
  {
    var n := RemovedAt(ws, w);
    var less := RemoveFirst(ws, w);
    forall i, j | 0 <= i < j < |less|
      ensures less[i].fut != less[j].fut
    {
      assert less[i] == ws[if n < |ws| && i >= n then i + 1 else i];
      assert less[j] == ws[if n < |ws| && j >= n then j + 1 else j];
    }
  }

  /** A cancelled or aborted task leaves the queue. */
  lemma ForgetOrderly(c: Counter, amount: int, x: Task, phase: map<Task, Phase>, gate: Gate, p: Phase)
    requires OrderlyCounter(c, phase, gate) && Suspended(phase, gate, Waiter(amount, x))
    ensures OrderlyCounter(Forget(c, amount, x), phase[x := p], gate)
  {
    hide RemoveFirst;
    var w := Waiter(amount, x);
    var n := RemovedAt(c.waiters, w);
    var less := RemoveFirst(c.waiters, w);
    OnceRemoved(c.waiters, w);
    forall i | 0 <= i < |less|
      ensures less[i].fut != x && Waiting(phase[x := p], gate, c.futures, less[i])
    {
      var i' := if n < |c.waiters| && i >= n then i + 1 else i;
      assert less[i] == c.waiters[i'] && Waiting(phase, gate, c.futures, c.waiters[i']);
      assert c.waiters[i'].fut == x ==> c.waiters[i'] == w;
      if n == |c.waiters| {
        NotFound(c.waiters, w, i');
      }
    }
  }

  lemma {:induction false} NotFound(ws: seq<Waiter>, w: Waiter, i: nat)
    requires RemoveFirst(ws, w) == ws && i < |ws|
    ensures ws[i] != w
    decreases |ws|
  {
    assert |ws[1..]| < |ws|;
    assert ws[0] != w;
    assert RemoveFirst(ws, w)[1..] == RemoveFirst(ws[1..], w);
    if i > 0 {
      NotFound(ws[1..], w, i - 1);
    }
  }

  lemma CancelOrderly(c: Counter, x: Task, phase: map<Task, Phase>, gate: Gate)
    requires OrderlyCounter(c, phase, gate)
    ensures OrderlyCounter(CancelFuture(c, x), phase, gate)
  {
    forall i | 0 <= i < |c.waiters|
      ensures Waiting(phase, gate, CancelFuture(c, x).futures, c.waiters[i])
    {
      assert Waiting(phase, gate, c.futures, c.waiters[i]);
    }
  }

  // ---- Every step ------------------------------------------------------------------------------------

  lemma RpmStaysOrderly(s: State, step: Step)
    requires OrderlyState(s) && Enabled(s, step) && s.rpm.Some?
    ensures Take(s, step).rpm.Some? && OrderlyCounter(Take(s, step).rpm.value, Take(s, step).phase, Rpm)
  {
    var c, s' := s.rpm.value, Take(s, step);
    match step {
      case SetRpm(limit) => WakeOrderly(c.(limit := limit), s.now, s.phase, Rpm);
      case RpmAcquire(x) =>
        NotQueued(c, s.phase, Rpm, x);
        AcquireOrderly(c, 1, s.now, x, s.phase, Rpm, RpmWait);
        var (d, admitted) := Acquire(c, 1, s.now, x);
        if admitted {
          OthersMove(d, s.phase, Rpm, x, RpmPassed);
          ChargeOrderly(d, 1, s.now, s'.phase, Rpm);
        }
      case RpmResume(x) =>
        NotQueued(c, s.phase, Rpm, x);
        OthersMove(c, s.phase, Rpm, x, RpmPassed);
        ChargeOrderly(c, 1, s.now, s'.phase, Rpm);
      case Cancel(x) =>
        if s.phase[x].RpmWait? {
          CancelOrderly(c, x, s.phase, Rpm);
        }
      case Abort(x) =>
        if s.phase[x].RpmWait? {
          ForgetOrderly(c, 1, x, s.phase, Rpm, Left);
        } else {
          NotQueued(c, s.phase, Rpm, x);
          OthersMove(c, s.phase, Rpm, x, Left);
        }
      case Tick(_) =>
      case SetTpm(_) =>
      case Enter(x) =>
        NotQueued(c, s.phase, Rpm, x);
        OthersMove(c, s.phase, Rpm, x, Entered);
      case TpmAcquire(x, _) =>
        NotQueued(c, s.phase, Rpm, x);
        OthersMove(c, s.phase, Rpm, x, s'.phase[x]);
      case TpmResume(x) =>
        NotQueued(c, s.phase, Rpm, x);
        OthersMove(c, s.phase, Rpm, x, s'.phase[x]);
      case Settle(x, _) =>
        NotQueued(c, s.phase, Rpm, x);
        OthersMove(c, s.phase, Rpm, x, s'.phase[x]);
      case Leave(x) =>
        NotQueued(c, s.phase, Rpm, x);
        OthersMove(c, s.phase, Rpm, x, Left);
    }
  }

  lemma TpmStaysOrderly(s: State, step: Step)
    requires OrderlyState(s) && Enabled(s, step) && s.tpm.Some?
    ensures Take(s, step).tpm.Some? && OrderlyCounter(Take(s, step).tpm.value, Take(s, step).phase, Tpm)
  {
    var c, s' := s.tpm.value, Take(s, step);
    match step {
      case SetTpm(limit) => WakeOrderly(c.(limit := limit), s.now, s.phase, Tpm);
      case TpmAcquire(x, maxTokens) =>
        var reserve := ProvisionalReserve(maxTokens);
        NotQueued(c, s.phase, Tpm, x);
        AcquireOrderly(c, reserve, s.now, x, s.phase, Tpm, TpmWait(reserve));
        var (d, admitted) := Acquire(c, reserve, s.now, x);
        if admitted {
          OthersMove(d, s.phase, Tpm, x, s'.phase[x]);
          ChargeOrderly(d, reserve, s.now, s'.phase, Tpm);
        }
      case TpmResume(x) =>
        NotQueued(c, s.phase, Tpm, x);
        OthersMove(c, s.phase, Tpm, x, s'.phase[x]);
        ChargeOrderly(c, s.phase[x].reserve, s.now, s'.phase, Tpm);
      case Cancel(x) =>
        if !s.phase[x].RpmWait? {
          CancelOrderly(c, x, s.phase, Tpm);
        }
      case Abort(x) =>
        if s.phase[x].RpmWait? {
          NotQueued(c, s.phase, Tpm, x);
          OthersMove(c, s.phase, Tpm, x, Left);
        } else {
          AbortOrderly(c, s.phase[x].reserve, x, s.phase);
        }
      case Settle(x, tokens) => SettlingOrderly(s, x, tokens, s'.phase[x]);
      case Leave(x) => SettlingOrderly(s, x, 0, Left);
      case Tick(_) =>
      case SetRpm(_) =>
      case Enter(x) =>
        NotQueued(c, s.phase, Tpm, x);
        OthersMove(c, s.phase, Tpm, x, Entered);
      case RpmAcquire(x) =>
        NotQueued(c, s.phase, Tpm, x);
        OthersMove(c, s.phase, Tpm, x, s'.phase[x]);
      case RpmResume(x) =>
        NotQueued(c, s.phase, Tpm, x);
        OthersMove(c, s.phase, Tpm, x, RpmPassed);
    }
  }

  lemma AbortOrderly(c: Counter, reserve: nat, x: Task, phase: map<Task, Phase>)
    requires OrderlyCounter(c, phase, Tpm) && x in phase && phase[x] == TpmWait(reserve)
    ensures OrderlyCounter(Forget(c, reserve, x), phase[x := Left], Tpm)
  {
    if reserve >= 1 {
      ForgetOrderly(c, reserve, x, phase, Tpm, Left);
    } else {
      forall i | 0 <= i < |c.waiters|
        ensures c.waiters[i].fut != x && c.waiters[i] != Waiter(reserve, x)
      {
        assert Waiting(phase, Tpm, c.futures, c.waiters[i]);
      }
      NotRemoved(c.waiters, Waiter(reserve, x));
      OthersMove(c, phase, Tpm, x, Left);
    }
  }

  lemma {:induction false} NotRemoved(ws: seq<Waiter>, w: Waiter)
    requires forall i :: 0 <= i < |ws| ==> ws[i] != w
    ensures RemoveFirst(ws, w) == ws
    decreases |ws|
  {
    if |ws| > 0 {
      NotRemoved(ws[1..], w);
    }
  }

  lemma SettlingOrderly(s: State, x: Task, tokens: int, p: Phase)
    requires OrderlyState(s) && s.tpm.Some? && x in s.phase && s.phase[x].Holding?
    ensures var s1 := SettleToken(s, x, tokens);
            s1.tpm.Some? && OrderlyCounter(s1.tpm.value, s.phase[x := p], Tpm)
  {
    var c := s.tpm.value;
    NotQueued(c, s.phase, Tpm, x);
    OthersMove(c, s.phase, Tpm, x, p);
    SettleOrderly(c, s.phase[x].token.reserved, tokens, s.now, s.phase[x := p], Tpm);
  }

  lemma StaysOrderly(s: State, step: Step)
    requires OrderlyState(s) && Enabled(s, step)
    ensures OrderlyState(Take(s, step))
  {
    if s.rpm.Some? {
      RpmStaysOrderly(s, step);
    }
    if s.tpm.Some? {
      TpmStaysOrderly(s, step);
    }
  }

  /** QUEUES STAY ORDERLY on every run. */
  lemma {:induction false} RunsStayOrderly(s: State, steps: seq<Step>)
    requires OrderlyState(s) && Legal(s, steps)
    ensures OrderlyState(After(s, steps))
    decreases |steps|
  {
    if |steps| > 0 {
      StaysOrderly(s, steps[0]);
      RunsStayOrderly(Take(s, steps[0]), steps[1..]);
    }
  }

  // ---- First in, first out -----------------------------------------------------------------------------

  ghost function QueueAfter(permits: nat, start: real, steps: seq<Step>, gate: Gate): seq<Waiter>
    requires Legal(Start(permits, start), steps)
  {
    var c := CounterAt(After(Start(permits, start), steps), gate);
    if c.Some? then c.value.waiters else []
  }

  /** FIRST IN, FIRST OUT, on every run from the start and at both gates: whenever two tasks are queued,
      the later one is granted nothing, on any continuation, for as long as the earlier one still waits,
      whoever is cancelled and whatever is charged, refunded or reconfigured meanwhile. */
  lemma NoOvertaking(permits: nat, start: real, before: seq<Step>, steps: seq<Step>, gate: Gate, i: nat, j: nat)
    requires Legal(Start(permits, start), before) && Legal(After(Start(permits, start), before), steps)
    requires i < j < |QueueAfter(permits, start, before, gate)|
    ensures var ws := QueueAfter(permits, start, before, gate);
      var c := CounterAt(After(After(Start(permits, start), before), steps), gate);
      c.Some? && (IsPending(c.value.futures, ws[i].fut) ==> !IsResolved(c.value.futures, ws[j].fut))
  {
    RunsStayOrderly(Start(permits, start), before);
    var s, ws := After(Start(permits, start), before), QueueAfter(permits, start, before, gate);
    var c := CounterAt(s, gate).value;
    assert Waiting(s.phase, gate, c.futures, ws[i]) && Waiting(s.phase, gate, c.futures, ws[j]);
    StaysBehind(s, steps, gate, i, j);
  }

  // ---- While the limit is zero -------------------------------------------------------------------------

  /** The limit at the gate stays zero. */
  ghost predicate StaysUnlimited(steps: seq<Step>, gate: Gate) {
    forall k :: 0 <= k < |steps| ==>
      (gate.Rpm? && steps[k].SetRpm? ==> steps[k].limit == 0) && (gate.Tpm? && steps[k].SetTpm? ==> steps[k].limit == 0)
  }

  ghost predicate Stuck(s: State, gate: Gate, t: Task) {
    && HasAsked(s, gate, t) && CounterAt(s, gate).Some? && CounterAt(s, gate).value.limit == 0
    && t in CounterAt(s, gate).value.futures && !CounterAt(s, gate).value.futures[t].Resolved?
  }

  /** At limit zero nobody in the queue fits. */
  lemma NobodyWoken(c: Counter, now: real, phase: map<Task, Phase>, gate: Gate)
    requires OrderlyCounter(c, phase, gate) && c.limit == 0
    ensures Wake(c, now).futures == c.futures && Wake(c, now).limit == 0
  {
    ExpiredPositive(c.events, now);
    SinceBounds(Expired(c.events, now), now);
    if |c.waiters| > 0 {
      assert Waiting(phase, gate, c.futures, c.waiters[0]);
    }
  }

  lemma StuckStep(s: State, step: Step, gate: Gate, t: Task)
    requires OrderlyState(s) && Enabled(s, step) && Stuck(s, gate, t) && StaysUnlimited([step], gate)
    ensures Stuck(Take(s, step), gate, t)
  {
    assert [step][0] == step;
    AskedStays(s, step, gate, t);
    var c := CounterAt(s, gate).value;
    if (gate.Rpm? && step.SetRpm?) || (gate.Tpm? && step.SetTpm?) {
      NobodyWoken(c.(limit := 0), s.now, s.phase, gate);
    }
  }

  lemma {:induction false} StuckRun(s: State, steps: seq<Step>, gate: Gate, t: Task)
    requires OrderlyState(s) && Legal(s, steps) && Stuck(s, gate, t) && StaysUnlimited(steps, gate)
    ensures Stuck(After(s, steps), gate, t)
    decreases |steps|
  {
    if |steps| > 0 {
      StuckStep(s, steps[0], gate, t);
      StaysOrderly(s, steps[0]);
      StuckRun(Take(s, steps[0]), steps[1..], gate, t);
    }
  }

  /** NO GRANT AT ZERO. Setting the limit to zero lifts it for newcomers only: whoever is queued then is
      granted nothing, on any run, until the limit is set to something else. */
  lemma NoGrantAtZero(permits: nat, start: real, before: seq<Step>, steps: seq<Step>, gate: Gate, i: nat)
    requires Legal(Start(permits, start), before) && Legal(After(Start(permits, start), before), steps)
    requires i < |QueueAfter(permits, start, before, gate)|
    requires CounterAt(After(Start(permits, start), before), gate).value.limit == 0 && StaysUnlimited(steps, gate)
    ensures var c := CounterAt(After(After(Start(permits, start), before), steps), gate);
      c.Some? && !IsResolved(c.value.futures, QueueAfter(permits, start, before, gate)[i].fut)
  {
    RunsStayOrderly(Start(permits, start), before);
    var s, ws := After(Start(permits, start), before), QueueAfter(permits, start, before, gate);
    assert Waiting(s.phase, gate, CounterAt(s, gate).value.futures, ws[i]);
    StuckRun(s, steps, gate, ws[i].fut);
  }

  /** A newcomer passes at once meanwhile, past everybody in the queue. */
  lemma NewcomersPass(s: State, t: Task)
    requires Enabled(s, RpmAcquire(t)) && s.rpm.Some? && s.rpm.value.limit == 0
    ensures Take(s, RpmAcquire(t)) == s.(phase := s.phase[t := RpmPassed])
  {
  }
}
