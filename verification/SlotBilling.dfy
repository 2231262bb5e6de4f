/** Token accounting on the TPM gate over every run. */
module SlotBilling {
  import opened Options
  import opened SlidingWindow
  import opened SlotProtocol

  function OpenAmount(p: Phase, cutoff: real): nat {
    if p.Holding? && p.token.gated && !p.token.settled && p.token.at >= cutoff then p.token.reserved else 0
  }

  function OpenSince(order: seq<Task>, phase: map<Task, Phase>, cutoff: real): nat {
    if |order| == 0 then 0
    else
      OpenSince(order[..|order| - 1], phase, cutoff)
      + var t := order[|order| - 1]; if t in phase then OpenAmount(phase[t], cutoff) else 0
  }

  /** What the endpoint should be charged with: open reserves taken, and settled tokens charged, at
      or after `cutoff`. A refund takes units from the newest events, whoever recorded them, so the
      counter's events and the ledger's entries do not correspond one to one. */
  function Ledger(s: State, cutoff: real): int {
    OpenSince(s.order, s.phase, cutoff) + Since(s.billed, cutoff)
  }

  ghost predicate Dominated(s: State, cutoff: real) {
    s.tpm.Some? ==> Since(s.tpm.value.events, cutoff) <= Ledger(s, cutoff)
  }

  ghost predicate Exact(s: State, cutoff: real) {
    s.tpm.Some? ==> Since(s.tpm.value.events, cutoff) == Ledger(s, cutoff)
  }

  ghost predicate EventsOk(ev: seq<Event>, from: real, now: real) {
    && Sorted(ev) && Positive(ev) && NoLaterThan(ev, now)
    && forall i :: 0 <= i < |ev| ==> ev[i].ts >= from
  }

  ghost predicate TokenOk(p: Phase, from: real, now: real, gate: bool) {
    p.Holding? ==> from <= p.token.at <= now && (p.token.gated ==> gate && p.token.reserved >= 1)
  }

  /** Bookkeeping facts: entry order lists each task once, stamps lie between `from` and now. */
  ghost predicate Shape(s: State, from: real) {
    && from <= s.now
    && (forall i, j :: 0 <= i < j < |s.order| ==> s.order[i] != s.order[j])
    && (forall t: Task :: t in s.phase <==> t in s.order)
    && EventsOk(s.billed, from, s.now)
    && (s.tpm.None? ==> s.billed == [])
    && (s.tpm.Some? ==> EventsOk(s.tpm.value.events, from, s.now))
    && (forall t: Task :: t in s.phase ==> TokenOk(s.phase[t], from, s.now, s.tpm.Some?))
    && (forall t: Task :: t in s.phase && s.phase[t].TpmWait? ==> s.tpm.Some? && s.phase[t].reserve >= 1)
  }

  // ---- The ledger under an update -----------------------------------------

  lemma {:induction false} OpenFrame(order: seq<Task>, phase: map<Task, Phase>, t: Task, p: Phase, cutoff: real)
    requires t !in order
    ensures OpenSince(order, phase[t := p], cutoff) == OpenSince(order, phase, cutoff)
  {
    if |order| > 0 {
      OpenFrame(order[..|order| - 1], phase, t, p, cutoff);
    }
  }

  /** Moving one task to another phase changes the ledger by that task's share only. */
  lemma {:induction false} OpenUpdate(order: seq<Task>, phase: map<Task, Phase>, t: Task, p: Phase, cutoff: real)
    requires forall i, j :: 0 <= i < j < |order| ==> order[i] != order[j]
    requires t in order && t in phase
    ensures OpenSince(order, phase[t := p], cutoff)
         == OpenSince(order, phase, cutoff) - OpenAmount(phase[t], cutoff) + OpenAmount(p, cutoff)
  {
    var init, last := order[..|order| - 1], order[|order| - 1];
    if last == t {
      assert t !in init;
      OpenFrame(init, phase, t, p, cutoff);
    } else {
      assert t in init;
      OpenUpdate(init, phase, t, p, cutoff);
    }
  }

  lemma {:induction false} OpenCovers(order: seq<Task>, phase: map<Task, Phase>, t: Task, cutoff: real)
    requires t in order && t in phase
    ensures OpenSince(order, phase, cutoff) >= OpenAmount(phase[t], cutoff)
  {
    if order[|order| - 1] != t {
      assert t in order[..|order| - 1];
      OpenCovers(order[..|order| - 1], phase, t, cutoff);
    }
  }

  // ---- The counter's events under its operations ----------------------------

  lemma ExpiredOk(ev: seq<Event>, from: real, now: real, cutoff: real)
    requires EventsOk(ev, from, now)
    ensures EventsOk(Expired(ev, now), from, now)
    ensures Since(Expired(ev, now), cutoff) <= Since(ev, cutoff)
    decreases |ev|
  {
    ExpiredIsWindow(ev, now, cutoff);
    if |ev| > 0 && ev[0].ts < now - WINDOW_SECONDS {
      assert Expired(ev, now) == Expired(ev[1..], now);
      ExpiredOk(ev[1..], from, now, cutoff);
    }
  }

  lemma WakeOk(c: Counter, from: real, now: real, cutoff: real)
    requires EventsOk(c.events, from, now)
    ensures EventsOk(Wake(c, now).events, from, now)
    ensures Since(Wake(c, now).events, cutoff) <= Since(c.events, cutoff)
    ensures Expired(c.events, now) == c.events ==> Wake(c, now).events == c.events
    ensures Wake(c, now).limit == c.limit
  {
    ExpiredOk(c.events, from, now, cutoff);
  }

  lemma EventAdded(events: seq<Event>, amount: nat, now: real, cutoff: real)
    ensures Since(events + [Event(now, amount)], cutoff) ==
            Since(events, cutoff) + (if now >= cutoff then amount else 0)
  {
    var ev := events + [Event(now, amount)];
    assert ev[..|ev| - 1] == events;
  }

  lemma EventFits(events: seq<Event>, amount: nat, from: real, now: real)
    requires EventsOk(events, from, now) && from <= now && amount > 0
    ensures EventsOk(events + [Event(now, amount)], from, now)
  {
  }

  lemma BilledOk(billed: seq<Event>, tokens: int, from: real, now: real, cutoff: real)
    requires EventsOk(billed, from, now) && from <= now
    ensures var after := billed + (if tokens > 0 then [Event(now, tokens)] else []);
      && EventsOk(after, from, now)
      && Since(after, cutoff) == Since(billed, cutoff) + (if tokens > 0 && now >= cutoff then tokens else 0)
      && Since(billed, cutoff) >= 0
  {
    SinceBounds(billed, cutoff);
    if tokens > 0 {
      EventFits(billed, tokens, from, now);
      EventAdded(billed, tokens, now, cutoff);
    } else {
      assert billed + [] == billed;
    }
  }

  /** Adding an event at the current time to a counter with nothing to expire leaves nothing to expire. */
  lemma AppendKeepsFresh(events: seq<Event>, now: real, amount: nat)
    requires Expired(events, now) == events
    ensures Expired(events + [Event(now, amount)], now) == events + [Event(now, amount)]
  {
    var ev := events + [Event(now, amount)];
    assert |events| > 0 ==> ev[0] == events[0];
    if |events| > 0 && events[0].ts < now - WINDOW_SECONDS {
      ExpiredShorter(events[1..], now);
    }
  }

  lemma ChargeOk(c: Counter, amount: nat, from: real, now: real, cutoff: real)
    requires EventsOk(c.events, from, now) && from <= now
    ensures var d := Charge(c, amount, now);
      && EventsOk(d.events, from, now) && d.limit == c.limit
      && Since(d.events, cutoff) <= Since(c.events, cutoff) + (if now >= cutoff then amount else 0)
      && (Expired(c.events, now) == c.events && c.limit != 0 ==>
            && Expired(d.events, now) == d.events
            && Since(d.events, cutoff) == Since(c.events, cutoff) + (if now >= cutoff then amount else 0))
  {
    if c.limit != 0 && amount > 0 {
      var ev := Expired(c.events, now) + [Event(now, amount)];
      AppendOk(c.events, amount, from, now, cutoff);
      WakeOk(c.(events := ev), from, now, cutoff);
    }
  }

  lemma AppendOk(events: seq<Event>, amount: nat, from: real, now: real, cutoff: real)
    requires EventsOk(events, from, now) && from <= now && amount > 0
    ensures var ev := Expired(events, now) + [Event(now, amount)];
      && EventsOk(ev, from, now)
      && Since(ev, cutoff) <= Since(events, cutoff) + (if now >= cutoff then amount else 0)
      && (Expired(events, now) == events ==>
            && Expired(ev, now) == ev
            && Since(ev, cutoff) == Since(events, cutoff) + (if now >= cutoff then amount else 0))
  {
    ExpiredOk(events, from, now, cutoff);
    EventFits(Expired(events, now), amount, from, now);
    EventAdded(Expired(events, now), amount, now, cutoff);
    if Expired(events, now) == events {
      AppendKeepsFresh(events, now, amount);
    }
  }

  lemma {:induction false} ExpiredShorter(ev: seq<Event>, now: real)
    ensures |Expired(ev, now)| <= |ev|
    decreases |ev|
  {
    if |ev| > 0 && ev[0].ts < now - WINDOW_SECONDS {
      ExpiredShorter(ev[1..], now);
    }
  }

  lemma RefundOk(c: Counter, amount: nat, from: real, now: real, cutoff: real)
    requires EventsOk(c.events, from, now)
    ensures var d := Refund(c, amount, now);
      && EventsOk(d.events, from, now) && d.limit == c.limit
      && (c.limit != 0 ==> Since(d.events, cutoff) <= Clip(Since(c.events, cutoff) - amount))
      && (Expired(c.events, now) == c.events ==> Expired(d.events, now) == d.events)
      && (Expired(c.events, now) == c.events && c.limit != 0 ==>
            Since(d.events, cutoff) == Clip(Since(c.events, cutoff) - amount))
  {
    SinceBounds(c.events, cutoff);
    if c.limit != 0 && amount > 0 {
      RefundTakesNewest(c.events, amount, cutoff);
      RefundKeepsFresh(c.events, amount, now);
      RefundFits(c.events, amount, from, now);
      WakeOk(c.(events := Refunded(c.events, amount)), from, now, cutoff);
    }
  }

  lemma RefundFits(events: seq<Event>, amount: nat, from: real, now: real)
    requires EventsOk(events, from, now)
    ensures EventsOk(Refunded(events, amount), from, now)
  {
    RefundKeepsShape(events, amount);
  }

  lemma RefundKeepsFresh(events: seq<Event>, amount: nat, now: real)
    requires Sorted(events) && Positive(events)
    ensures Expired(events, now) == events ==> Expired(Refunded(events, amount), now) == Refunded(events, amount)
  {
    RefundKeepsShape(events, amount);
    var ev := Refunded(events, amount);
    if Expired(events, now) == events && |ev| > 0 && ev[0].ts < now - WINDOW_SECONDS {
      ExpiredShorter(events[1..], now);
    }
  }

  /** Settling at a non-zero limit never leaves more than the ledger allows: the whole reserve
      goes from above every cutoff it counted towards, then the real cost is added. */
  lemma SettleOk(c: Counter, reserved: nat, tokens: int, from: real, now: real, cutoff: real)
    requires EventsOk(c.events, from, now) && from <= now && c.limit != 0
    ensures var d := SettleOn(c, reserved, tokens, now);
      var cost := if tokens > 0 && now >= cutoff then tokens else 0;
      && EventsOk(d.events, from, now) && d.limit == c.limit
      && Since(d.events, cutoff) <= Clip(Since(c.events, cutoff) - reserved) + cost
      && (Expired(c.events, now) == c.events ==>
            && Expired(d.events, now) == d.events
            && Since(d.events, cutoff) == Clip(Since(c.events, cutoff) - reserved) + cost)
  {
    SinceBounds(c.events, cutoff);
    RefundOk(c, reserved, from, now, cutoff);
    var c1 := if reserved != 0 then Refund(c, reserved, now) else c;
    if tokens > 0 {
      ChargeOk(c1, tokens, from, now, cutoff);
    }
  }

  // ---- One step -----------------------------------------------------------

  /** A token is settled for the first time, below its reserve, while the TPM limit is zero. */
  ghost predicate LosesReserve(s: State, step: Step)
    requires Enabled(s, step)
  {
    && (step.Settle? || step.Leave?)
    && s.phase[step.task].token.gated && !s.phase[step.task].token.settled
    && s.tpm.Some? && s.tpm.value.limit == 0
    && (if step.Settle? then step.tokens else 0) < s.phase[step.task].token.reserved
  }

  /** The TPM counter is in use and nothing recorded on it has left the window. */
  ghost predicate Quiet(s: State) {
    s.tpm.Some? ==> s.tpm.value.limit != 0 && Expired(s.tpm.value.events, s.now) == s.tpm.value.events
  }

  lemma {:induction false} NothingOpen(order: seq<Task>, phase: map<Task, Phase>, cutoff: real)
    requires forall t: Task :: t in phase && phase[t].Holding? ==> !phase[t].token.gated
    ensures OpenSince(order, phase, cutoff) == 0
  {
    if |order| > 0 {
      NothingOpen(order[..|order| - 1], phase, cutoff);
    }
  }

  /** The bookkeeping facts survive when one task moves to a well-formed phase. */
  lemma ShapeMove(s: State, s': State, t: Task, from: real)
    requires Shape(s, from) && t in s.phase
    requires s'.now == s.now && s'.order == s.order && t in s'.phase && s'.phase == s.phase[t := s'.phase[t]]
    requires EventsOk(s'.billed, from, s'.now) && s'.tpm.Some? == s.tpm.Some?
    requires if s'.tpm.Some? then EventsOk(s'.tpm.value.events, from, s'.now) else s'.billed == []
    requires TokenOk(s'.phase[t], from, s'.now, s'.tpm.Some?)
    requires s'.phase[t].TpmWait? ==> s'.tpm.Some? && s'.phase[t].reserve >= 1
    ensures Shape(s', from)
  {
  }

  /** Settling an open reserve moves both sides of the comparison at `cutoff` together: `before`
      and `after` are the counter's tallies, `others` what the other open reserves contribute. */
  lemma SettleBalance(before: nat, after: int, token: Token, tokens: int, others: nat, billed: nat, now: real,
                      cutoff: real)
    requires token.gated && !token.settled
    requires var cost := if tokens > 0 && now >= cutoff then tokens else 0;
      after <= Clip(before - token.reserved) + cost
    ensures var cost := if tokens > 0 && now >= cutoff then tokens else 0;
      var ledger := others + OpenAmount(Holding(token), cutoff) + billed;
      && (before <= ledger ==> after <= others + billed + cost)
      && (after == Clip(before - token.reserved) + cost && before == ledger && cutoff <= token.at ==>
            after == others + billed + cost)
  {
  }

  lemma SettleDominates(s: State, d: Counter, s': State, t: Task, tokens: int, from: real, cutoff: real)
    requires from <= s.now && s.tpm.Some? && s.tpm.value.limit != 0
    requires EventsOk(s.tpm.value.events, from, s.now) && EventsOk(s.billed, from, s.now)
    requires t in s.phase && s.phase[t].Holding? && s.phase[t].token.gated && !s.phase[t].token.settled
    requires d == SettleOn(s.tpm.value, s.phase[t].token.reserved, tokens, s.now)
    requires s'.tpm == Some(d) && s'.order == s.order
    requires s'.billed == s.billed + (if tokens > 0 then [Event(s.now, tokens)] else [])
    requires OpenSince(s.order, s.phase, cutoff)
          == OpenSince(s'.order, s'.phase, cutoff) + OpenAmount(s.phase[t], cutoff)
    ensures EventsOk(d.events, from, s.now) && EventsOk(s'.billed, from, s.now)
    ensures Dominated(s, cutoff) ==> Dominated(s', cutoff)
    ensures Quiet(s) && Exact(s, cutoff) && cutoff <= s.phase[t].token.at ==> Exact(s', cutoff)
  {
    var token := s.phase[t].token;
    SettleOk(s.tpm.value, token.reserved, tokens, from, s.now, cutoff);
    BilledOk(s.billed, tokens, from, s.now, cutoff);
    SinceBounds(s.tpm.value.events, cutoff);
    SettleBalance(Since(s.tpm.value.events, cutoff), Since(d.events, cutoff), token, tokens,
                  OpenSince(s'.order, s'.phase, cutoff), Since(s.billed, cutoff), s.now, cutoff);
  }

  lemma SettleStep(s: State, t: Task, tokens: int, from: real, cutoff: real)
    requires Shape(s, from) && Dominated(s, cutoff)
    requires t in s.phase && s.phase[t].Holding?
    requires !LosesReserve(s, Settle(t, tokens))
    ensures var s' := SettleToken(s, t, tokens);
      && Shape(s', from) && Dominated(s', cutoff)
      && (Quiet(s) && Exact(s, cutoff) && cutoff <= from ==> Exact(s', cutoff))
  {
    var token := s.phase[t].token;
    var s' := SettleToken(s, t, tokens);
    if !token.settled {
      assert TokenOk(s.phase[t], from, s.now, s.tpm.Some?);
      OpenUpdate(s.order, s.phase, t, s'.phase[t], cutoff);
      if token.gated && s.tpm.value.limit != 0 {
        SettleDominates(s, s'.tpm.value, s', t, tokens, from, cutoff);
      } else {
        BilledOk(s.billed, tokens, from, s.now, cutoff);
      }
      ShapeMove(s, s', t, from);
    }
  }

  lemma LeaveStep(s: State, t: Task, from: real, cutoff: real)
    requires Shape(s, from) && Dominated(s, cutoff) && Enabled(s, Leave(t)) && !LosesReserve(s, Leave(t))
    ensures var s' := Take(s, Leave(t));
      && Shape(s', from) && Dominated(s', cutoff)
      && (Quiet(s) && Exact(s, cutoff) && cutoff <= from ==> Exact(s', cutoff))
  {
    SettleStep(s, t, 0, from, cutoff);
    var s1 := SettleToken(s, t, 0);
    OpenUpdate(s1.order, s1.phase, t, Left, cutoff);
    ShapeMove(s1, Take(s, Leave(t)), t, from);
  }

  lemma TpmAcquireStep(s: State, t: Task, maxTokens: int, from: real, cutoff: real)
    requires Shape(s, from) && Dominated(s, cutoff) && Enabled(s, TpmAcquire(t, maxTokens))
    ensures var s' := Take(s, TpmAcquire(t, maxTokens));
      && Shape(s', from) && Dominated(s', cutoff)
      && (Quiet(s) && Exact(s, cutoff) ==> Exact(s', cutoff))
  {
    var s' := Take(s, TpmAcquire(t, maxTokens));
    OpenUpdate(s.order, s.phase, t, s'.phase[t], cutoff);
    if s.tpm.Some? {
      var c := s.tpm.value;
      var reserve := ProvisionalReserve(maxTokens);
      var (d, admitted) := Acquire(c, reserve, s.now, t);
      ExpiredOk(c.events, from, s.now, cutoff);
      if admitted {
        ChargeOk(d, reserve, from, s.now, cutoff);
      }
    }
    ShapeMove(s, s', t, from);
  }

  lemma TpmResumeStep(s: State, t: Task, from: real, cutoff: real)
    requires Shape(s, from) && Dominated(s, cutoff) && Enabled(s, TpmResume(t))
    ensures var s' := Take(s, TpmResume(t));
      && Shape(s', from) && Dominated(s', cutoff)
      && (Quiet(s) && Exact(s, cutoff) ==> Exact(s', cutoff))
  {
    var s' := Take(s, TpmResume(t));
    OpenUpdate(s.order, s.phase, t, s'.phase[t], cutoff);
    ChargeOk(s.tpm.value, s.phase[t].reserve, from, s.now, cutoff);
    ShapeMove(s, s', t, from);
  }

  lemma SetTpmStep(s: State, limit: nat, from: real, cutoff: real)
    requires Shape(s, from) && Dominated(s, cutoff)
    ensures var s' := Take(s, SetTpm(limit));
      && Shape(s', from) && Dominated(s', cutoff)
      && (Quiet(s) && Exact(s, cutoff) ==> Exact(s', cutoff))
  {
    if s.tpm.Some? {
      WakeOk(s.tpm.value.(limit := limit), from, s.now, cutoff);
    } else {
      NothingOpen(s.order, s.phase, cutoff);
    }
  }

  lemma EnterStep(s: State, s': State, t: Task, from: real, cutoff: real)
    requires Shape(s, from) && Dominated(s, cutoff) && t !in s.phase
    requires s' == s.(order := s.order + [t], phase := s.phase[t := Entered])
    ensures Shape(s', from) && Dominated(s', cutoff) && (Exact(s, cutoff) ==> Exact(s', cutoff))
  {
    assert t !in s.order;
    assert s'.order[..|s'.order| - 1] == s.order;
    OpenFrame(s.order, s.phase, t, Entered, cutoff);
    EnterShape(s, t, from);
  }

  lemma EnterShape(s: State, t: Task, from: real)
    requires Shape(s, from) && t !in s.phase
    ensures Shape(s.(order := s.order + [t], phase := s.phase[t := Entered]), from)
  {
    assert forall u: Task :: u in s.order + [t] <==> u in s.order || u == t;
  }

  /** Steps on the RPM side, cancellations and aborts: no reserve is taken or given back. */
  lemma MoveStep(s: State, s': State, t: Task, from: real, cutoff: real)
    requires Shape(s, from) && Dominated(s, cutoff) && t in s.phase && !s.phase[t].Holding?
    requires s' == s.(rpm := s'.rpm, tpm := s'.tpm, phase := s'.phase)
    requires t in s'.phase && s'.phase == s.phase[t := s'.phase[t]]
    requires s'.phase[t] == s.phase[t] || (!s'.phase[t].Holding? && !s'.phase[t].TpmWait?)
    requires s'.tpm.Some? == s.tpm.Some? && (s.tpm.Some? ==> s'.tpm.value.events == s.tpm.value.events)
    ensures Shape(s', from) && Dominated(s', cutoff) && (Exact(s, cutoff) ==> Exact(s', cutoff))
  {
    OpenUpdate(s.order, s.phase, t, s'.phase[t], cutoff);
    ShapeMove(s, s', t, from);
  }

  lemma StepBills(s: State, step: Step, from: real, cutoff: real)
    requires Shape(s, from) && Dominated(s, cutoff)
    requires Enabled(s, step) && !LosesReserve(s, step)
    ensures Shape(Take(s, step), from) && Dominated(Take(s, step), cutoff)
    ensures Quiet(s) && Exact(s, cutoff) && cutoff <= from ==> Exact(Take(s, step), cutoff)
  {
    var s' := Take(s, step);
    match step {
      case Tick(_) =>
      case SetRpm(_) =>
      case SetTpm(limit) => SetTpmStep(s, limit, from, cutoff);
      case Enter(t) => EnterStep(s, s', t, from, cutoff);
      case RpmAcquire(t) => MoveStep(s, s', t, from, cutoff);
      case RpmResume(t) => MoveStep(s, s', t, from, cutoff);
      case TpmAcquire(t, maxTokens) => TpmAcquireStep(s, t, maxTokens, from, cutoff);
      case TpmResume(t) => TpmResumeStep(s, t, from, cutoff);
      case Cancel(t) => MoveStep(s, s', t, from, cutoff);
      case Abort(t) => MoveStep(s, s', t, from, cutoff);
      case Settle(t, tokens) => SettleStep(s, t, tokens, from, cutoff);
      case Leave(t) => LeaveStep(s, t, from, cutoff);
    }
  }

  // ---- Every run ----------------------------------------------------------

  /** A legal run in which no token is settled below its reserve while the TPM limit is zero. */
  ghost predicate LegalBilled(s: State, steps: seq<Step>)
    decreases |steps|
  {
    |steps| > 0 ==>
      && Enabled(s, steps[0]) && !LosesReserve(s, steps[0])
      && LegalBilled(Take(s, steps[0]), steps[1..])
  }

  /** A legal run on which the TPM counter is always limited and nothing on it expires. */
  ghost predicate LegalQuiet(s: State, steps: seq<Step>)
    decreases |steps|
  {
    Quiet(s) && (|steps| > 0 ==> Enabled(s, steps[0]) && LegalQuiet(Take(s, steps[0]), steps[1..]))
  }

  lemma {:induction false} RunBills(s: State, steps: seq<Step>, from: real, cutoff: real)
    requires Shape(s, from) && Dominated(s, cutoff) && LegalBilled(s, steps)
    ensures Legal(s, steps) && Shape(After(s, steps), from) && Dominated(After(s, steps), cutoff)
    decreases |steps|
  {
    if |steps| > 0 {
      StepBills(s, steps[0], from, cutoff);
      RunBills(Take(s, steps[0]), steps[1..], from, cutoff);
    }
  }

  lemma {:induction false} RunExact(s: State, steps: seq<Step>, from: real)
    requires Shape(s, from) && Exact(s, from) && LegalQuiet(s, steps)
    ensures Legal(s, steps) && Shape(After(s, steps), from) && Exact(After(s, steps), from)
    decreases |steps|
  {
    if |steps| > 0 {
      StepBills(s, steps[0], from, from);
      RunExact(Take(s, steps[0]), steps[1..], from);
    }
  }

  /** BILLING DOMINANCE. On every run, for every cutoff, the tokens recorded at or after it are
      covered by the reserves opened and the costs settled at or after it, although refunds
      eat whatever events are newest. */
  lemma BillingDominance(permits: nat, start: real, steps: seq<Step>, cutoff: real)
    requires LegalBilled(Start(permits, start), steps)
    ensures Legal(Start(permits, start), steps)
    ensures var s := After(Start(permits, start), steps);
      s.tpm.Some? ==> Since(s.tpm.value.events, cutoff) <= OpenSince(s.order, s.phase, cutoff) + Since(s.billed, cutoff)
  {
    RunBills(Start(permits, start), steps, start, cutoff);
  }

  /** On runs where nothing expires the two tallies are equal: no token is lost or billed twice. */
  lemma BillingExactWhileQuiet(permits: nat, start: real, steps: seq<Step>)
    requires LegalQuiet(Start(permits, start), steps)
    ensures Legal(Start(permits, start), steps)
    ensures var s := After(Start(permits, start), steps);
      s.tpm.Some? ==> Total(s.tpm.value.events) == OpenSince(s.order, s.phase, start) + Total(s.billed)
  {
    RunExact(Start(permits, start), steps, start);
    var s := After(Start(permits, start), steps);
    SinceAll(s.billed, start);
    if s.tpm.Some? {
      SinceAll(s.tpm.value.events, start);
    }
  }

  /** Once every token is settled the window holds no more than the real cost charged inside it. */
  lemma WindowCoveredBySettledCost(permits: nat, start: real, steps: seq<Step>)
    requires LegalBilled(Start(permits, start), steps)
    ensures Legal(Start(permits, start), steps)
    ensures var s := After(Start(permits, start), steps);
      s.tpm.Some? && (forall t: Task :: t in s.phase && s.phase[t].Holding? ==> s.phase[t].token.settled) ==>
        Total(Expired(s.tpm.value.events, s.now)) <= Since(s.billed, s.now - WINDOW_SECONDS)
  {
    var s := Start(permits, start);
    RunBills(s, steps, start, BilledAfter(s, steps).now - WINDOW_SECONDS);
    s := After(s, steps);
    if s.tpm.Some? && forall t: Task :: t in s.phase && s.phase[t].Holding? ==> s.phase[t].token.settled {
      ExpiredIsWindow(s.tpm.value.events, s.now, s.now);
      AllSettled(s.order, s.phase, s.now - WINDOW_SECONDS);
    }
  }

  lemma {:induction false} BilledIsLegal(s: State, steps: seq<Step>)
    requires LegalBilled(s, steps)
    ensures Legal(s, steps)
    decreases |steps|
  {
    if |steps| > 0 {
      BilledIsLegal(Take(s, steps[0]), steps[1..]);
    }
  }

  ghost function BilledAfter(s: State, steps: seq<Step>): State
    requires LegalBilled(s, steps)
  {
    BilledIsLegal(s, steps);
    After(s, steps)
  }

  lemma {:induction false} AllSettled(order: seq<Task>, phase: map<Task, Phase>, cutoff: real)
    requires forall t: Task :: t in phase && phase[t].Holding? ==> phase[t].token.settled
    ensures OpenSince(order, phase, cutoff) == 0
  {
    if |order| > 0 {
      AllSettled(order[..|order| - 1], phase, cutoff);
    }
  }

  /** EXACT CONDITION for one settlement. From a state with equal tallies, settling an open
      reserve keeps dominance at every cutoff if and only if the TPM limit is not zero at that
      moment or the real cost is at least the reserve. */
  lemma SettleKeepsDominanceIff(s: State, t: Task, tokens: int, from: real)
    requires Shape(s, from) && Exact(s, from) && s.tpm.Some?
    requires forall cutoff :: Dominated(s, cutoff)
    requires t in s.phase && s.phase[t].Holding? && s.phase[t].token.gated && !s.phase[t].token.settled
    ensures (forall cutoff :: Dominated(SettleToken(s, t, tokens), cutoff))
       <==> s.tpm.value.limit != 0 || tokens >= s.phase[t].token.reserved
  {
    var token := s.phase[t].token;
    var s' := SettleToken(s, t, tokens);
    assert TokenOk(s.phase[t], from, s.now, true);
    forall cutoff
      ensures s.tpm.value.limit != 0 ==> Dominated(s', cutoff)
      ensures s.tpm.value.limit == 0 && tokens >= token.reserved ==> Dominated(s', cutoff)
      ensures s.tpm.value.limit == 0 && tokens < token.reserved && cutoff == from ==> !Dominated(s', cutoff)
    {
      assert Dominated(s, cutoff);
      if s.tpm.value.limit != 0 {
        SettleStep(s, t, tokens, from, cutoff);
      } else {
        OpenUpdate(s.order, s.phase, t, s'.phase[t], cutoff);
        BilledOk(s.billed, tokens, from, s.now, cutoff);
      }
    }
    if s.tpm.value.limit == 0 && tokens < token.reserved {
      assert !Dominated(s', from);
    }
  }

  const LIMITED := Counter(10, [], [], map[])
  const CHARGED := LIMITED.(events := [Event(0.0, 2)])
  const PASSED := State(1, 0.0, None, Some(LIMITED), [0], map[0 := RpmPassed], [])

  /** The tail of the run below: a reserve of two is taken, the limit goes, the token settles at zero. */
  lemma LeakTail() returns (steps: seq<Step>)
    ensures Legal(PASSED, steps) && !Dominated(After(PASSED, steps), 0.0)
  {
    var open := Token(true, 2, 0.0, false);
    var s4 := PASSED.(tpm := Some(CHARGED), phase := map[0 := Holding(open)]);
    var s5 := s4.(tpm := Some(CHARGED.(limit := 0)));
    var s6 := s5.(phase := map[0 := Holding(open.(settled := true))]);
    assert SettleToken(s5, 0, 0) == s6;
    steps := Extend(s5, Settle(0, 0), s6, []);
    steps := Extend(s4, SetTpm(0), s5, steps);
    assert Take(PASSED, TpmAcquire(0, 1)) == s4 by {
      assert Total([]) == 0;
      assert Acquire(LIMITED, 2, 0.0, 0) == (LIMITED, true);
      assert Charge(LIMITED, 2, 0.0) == CHARGED;
    }
    steps := Extend(PASSED, TpmAcquire(0, 1), s4, steps);
    assert Since([Event(0.0, 2)], 0.0) == Since([], 0.0) + 2;
    assert OpenSince([0], s6.phase, 0.0) == OpenSince([], s6.phase, 0.0) + 0;
  }

  /** A run that ends in such a settlement: a reserve is taken under a limit, the limit is
      removed, and the error path settles at zero cost. The reserve stays on the counter. */
  lemma UnlimitedSettlementLeaks() returns (steps: seq<Step>)
    ensures Legal(Start(1, 0.0), steps)
    ensures !Dominated(After(Start(1, 0.0), steps), 0.0)
  {
    var s0 := Start(1, 0.0);
    var s1 := s0.(tpm := Some(LIMITED));
    var s2 := s1.(order := [0], phase := map[0 := Entered]);
    steps := LeakTail();
    steps := Extend(s2, RpmAcquire(0), PASSED, steps);
    assert Holders(s1) == {};
    steps := Extend(s1, Enter(0), s2, steps);
    steps := Extend(s0, SetTpm(10), s1, steps);
  }

  lemma Extend(s: State, step: Step, next: State, rest: seq<Step>) returns (steps: seq<Step>)
    requires Enabled(s, step) && Take(s, step) == next && Legal(next, rest)
    ensures Legal(s, steps) && After(s, steps) == After(next, rest)
  {
    steps := [step] + rest;
    assert steps[1..] == rest;
  }
}
