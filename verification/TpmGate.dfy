/** The TPM gate over every run: how far the window and the grants can exceed the limit. */
module TpmGate {
  import opened Options
  import opened SlidingWindow
  import opened SlotProtocol
  import opened WaiterOrder
  import opened GateQueues
  import RpmGate

  // ---- Grants and open tokens --------------------------------------------------------------------

  /** Tasks whose future was resolved and which have not charged their reserve yet. */
  ghost function GrantedIn(phase: map<Task, Phase>, futs: map<nat, FutureState>): set<Task> {
    set t | t in phase && phase[t].TpmWait? && t in futs && futs[t].Resolved?
  }

  predicate IsOpen(p: Phase) {
    p.Holding? && p.token.gated && !p.token.settled
  }

  /** Tasks that hold a reserve on the counter. */
  ghost function OpenIn(phase: map<Task, Phase>): set<Task> {
    set t | t in phase && IsOpen(phase[t])
  }

  ghost function Granted(s: State): set<Task> {
    if s.tpm.Some? then GrantedIn(s.phase, s.tpm.value.futures) else {}
  }

  function ReserveOf(phase: map<Task, Phase>, t: Task): nat {
    if t in phase && phase[t].TpmWait? then phase[t].reserve else 0
  }

  /** What the tasks still have to charge. */
  ghost function Reserved(ts: set<Task>, phase: map<Task, Phase>): nat {
    if ts == {} then 0
    else
      var t :| t in ts;
      ReserveOf(phase, t) + Reserved(ts - {t}, phase)
  }

  lemma {:induction false} ReservedWithout(ts: set<Task>, phase: map<Task, Phase>, x: Task)
    requires x in ts
    ensures Reserved(ts, phase) == ReserveOf(phase, x) + Reserved(ts - {x}, phase)
    decreases |ts|
  {
    var t :| t in ts && Reserved(ts, phase) == ReserveOf(phase, t) + Reserved(ts - {t}, phase);
    if t != x {
      ReservedWithout(ts - {t}, phase, x);
      ReservedWithout(ts - {x}, phase, t);
      assert ts - {t} - {x} == ts - {x} - {t};
    }
  }

  lemma {:induction false} ReservedFrame(ts: set<Task>, phase: map<Task, Phase>, phase': map<Task, Phase>)
    requires forall t :: t in ts ==> ReserveOf(phase', t) == ReserveOf(phase, t)
    ensures Reserved(ts, phase') == Reserved(ts, phase)
    decreases |ts|
  {
    if ts != {} {
      var x :| x in ts;
      ReservedWithout(ts, phase, x);
      ReservedWithout(ts, phase', x);
      ReservedFrame(ts - {x}, phase, phase');
    }
  }

  lemma {:induction false} ReservedJoins(a: set<Task>, b: set<Task>, phase: map<Task, Phase>)
    requires a !! b
    ensures Reserved(a + b, phase) == Reserved(a, phase) + Reserved(b, phase)
    decreases |a|
  {
    if a == {} {
      assert a + b == b;
    } else {
      var x :| x in a;
      ReservedWithout(a + b, phase, x);
      ReservedWithout(a, phase, x);
      ReservedJoins(a - {x}, b, phase);
      assert a + b - {x} == (a - {x}) + b;
    }
  }

  lemma Distributes(a: nat, b: nat, r: nat)
    ensures (a + b) * r == a * r + b * r
  {
  }

  lemma TimesGrows(a: nat, b: nat, r: nat)
    requires a <= b
    ensures a * r <= b * r
  {
    Distributes(a, b - a, r);
  }

  lemma {:induction false} ReservedAtMost(ts: set<Task>, phase: map<Task, Phase>, r: nat)
    requires forall t :: t in ts ==> ReserveOf(phase, t) <= r
    ensures Reserved(ts, phase) <= |ts| * r
    decreases |ts|
  {
    hide Reserved;
    if ts == {} {
      NothingReserved(phase);
    } else {
      var x :| x in ts;
      ReservedWithout(ts, phase, x);
      ReservedAtMost(ts - {x}, phase, r);
      Distributes(|ts - {x}|, 1, r);
      assert |ts| == |ts - {x}| + 1;
    }
  }

  lemma NothingReserved(phase: map<Task, Phase>)
    ensures Reserved({}, phase) == 0
  {
  }

  // ---- The bound -----------------------------------------------------------------------------------

  ghost predicate ReservesAtMost(phase: map<Task, Phase>, r: nat) {
    forall t :: t in phase ==>
      (phase[t].TpmWait? ==> phase[t].reserve <= r) && (phase[t].Holding? ==> phase[t].token.reserved <= r)
  }

  ghost function HoldersIn(phase: map<Task, Phase>): set<Task> {
    set t | t in phase && phase[t] != Left
  }

  ghost function Busy(c: Counter, phase: map<Task, Phase>): nat {
    |GrantedIn(phase, c.futures)| + |OpenIn(phase)|
  }

  /** Units recorded and units granted. */
  ghost function Level(c: Counter, phase: map<Task, Phase>): int {
    Total(c.events) + Reserved(GrantedIn(phase, c.futures), phase)
  }

  /** By how much the level may exceed the limit: a reserve for each permit but one, and what each permit
      not in use at this gate may have settled beyond what it gave back. */
  function Allowance(permits: nat, r: nat, x: nat, busy: nat): int {
    (permits - 1) * r + (permits - busy) * x
  }

  ghost predicate Bounded(c: Counter, phase: map<Task, Phase>, permits: nat, r: nat, x: nat) {
    Level(c, phase) <= c.limit + Allowance(permits, r, x, Busy(c, phase))
  }

  lemma LessBusy(permits: nat, r: nat, x: nat, busy: nat, busy': nat)
    requires busy' <= busy <= permits
    ensures Allowance(permits, r, x, busy') == Allowance(permits, r, x, busy) + (busy - busy') * x
    ensures Allowance(permits, r, x, busy') >= Allowance(permits, r, x, busy)
    ensures busy == busy' + 1 ==> Allowance(permits, r, x, busy') == Allowance(permits, r, x, busy) + x
  {
    Distributes(permits - busy, busy - busy', x);
    TimesGrows(0, busy - busy', x);
  }

  lemma AllowanceCovers(permits: nat, r: nat, x: nat, busy: nat, others: nat)
    requires permits >= 1 && busy <= permits && others <= permits - 1
    ensures Allowance(permits, r, x, busy) >= others * r
    ensures busy < permits && others <= permits - 2 ==> Allowance(permits, r, x, busy) >= others * r + r + x
  {
    TimesGrows(0, permits - busy, x);
    TimesGrows(others, permits - 1, r);
    if busy < permits && others <= permits - 2 {
      TimesGrows(1, permits - busy, x);
      TimesGrows(others + 1, permits - 1, r);
      Distributes(others, 1, r);
    }
  }

  lemma BusyHold(c: Counter, phase: map<Task, Phase>)
    ensures GrantedIn(phase, c.futures) + OpenIn(phase) <= HoldersIn(phase)
    ensures Busy(c, phase) <= |HoldersIn(phase)|
    ensures |GrantedIn(phase, c.futures)| <= Busy(c, phase)
  {
    var g, o := GrantedIn(phase, c.futures), OpenIn(phase);
    assert g !! o && |g + o| == |g| + |o|;
    RpmGate.SubsetSize(g + o, HoldersIn(phase));
  }

  /** Room for the units recorded and the new grants, and a permit that none of the old ones uses. */
  lemma RoomIsBounded(c: Counter, phase: map<Task, Phase>, fits: set<Task>, permits: nat, r: nat, x: nat)
    requires permits >= 1 && ReservesAtMost(phase, r) && |HoldersIn(phase)| <= permits
    requires fits <= GrantedIn(phase, c.futures) && Total(c.events) + Reserved(fits, phase) <= c.limit
    requires |GrantedIn(phase, c.futures) - fits| <= permits - 1
    ensures Bounded(c, phase, permits, r, x)
  {
    var g := GrantedIn(phase, c.futures);
    assert g == fits + (g - fits);
    ReservedJoins(fits, g - fits, phase);
    ReservedAtMost(g - fits, phase, r);
    BusyHold(c, phase);
    AllowanceCovers(permits, r, x, Busy(c, phase), |g - fits|);
  }

  // ---- Waking ----------------------------------------------------------------------------------------

  /** From `futs` to `futs'` somebody was granted something, and it fitted. */
  ghost predicate GrantsFit(phase: map<Task, Phase>, futs: map<nat, FutureState>, futs': map<nat, FutureState>,
                            current: int, limit: int)
  {
    && GrantedIn(phase, futs) <= GrantedIn(phase, futs')
    && var fits := GrantedIn(phase, futs') - GrantedIn(phase, futs);
       fits == {} || current + Reserved(fits, phase) <= limit
  }

  lemma OrderlyTail(ws: seq<Waiter>, futs: map<nat, FutureState>, phase: map<Task, Phase>, mid: map<nat, FutureState>)
    requires Orderly(ws, futs, phase, Tpm) && |ws| > 0
    requires mid == if futs[ws[0].fut].Pending? then futs[ws[0].fut := Resolved] else futs
    ensures Orderly(ws[1..], mid, phase, Tpm)
  {
    forall i | 0 <= i < |ws| - 1
      ensures Waiting(phase, Tpm, mid, ws[1..][i])
    {
      assert Waiting(phase, Tpm, futs, ws[i + 1]) && ws[i + 1].fut != ws[0].fut;
    }
  }

  lemma HeadGranted(phase: map<Task, Phase>, futs: map<nat, FutureState>, mid: map<nat, FutureState>,
                    futs': map<nat, FutureState>, w: Waiter, current: int, limit: int)
    requires Waiting(phase, Tpm, futs, w) && current + w.need <= limit
    requires mid == if futs[w.fut].Pending? then futs[w.fut := Resolved] else futs
    requires GrantsFit(phase, mid, futs', current + w.need, limit)
    ensures GrantsFit(phase, futs, futs', current, limit)
  {
    var g0, g1, g2 := GrantedIn(phase, futs), GrantedIn(phase, mid), GrantedIn(phase, futs');
    if futs[w.fut].Pending? {
      assert g1 == g0 + {w.fut} && w.fut !in g0;
      var fits := g2 - g0;
      assert fits - {w.fut} == g2 - g1;
      ReservedWithout(fits, phase, w.fut);
      assert Reserved({}, phase) == 0;
    }
  }

  lemma {:induction false} WokenFits(current: int, limit: int, ws: seq<Waiter>, futs: map<nat, FutureState>,
                                     phase: map<Task, Phase>)
    requires Orderly(ws, futs, phase, Tpm)
    ensures GrantsFit(phase, futs, Woken(current, limit, ws, futs).1, current, limit)
    decreases |ws|
  {
    if |ws| > 0 && current + ws[0].need <= limit {
      hide GrantsFit;
      var f := ws[0].fut;
      assert Waiting(phase, Tpm, futs, ws[0]);
      var mid := if futs[f].Pending? then futs[f := Resolved] else futs;
      OrderlyTail(ws, futs, phase, mid);
      WokenFits(current + ws[0].need, limit, ws[1..], mid, phase);
      HeadGranted(phase, futs, mid, Woken(current, limit, ws, futs).1, ws[0], current, limit);
    }
  }

  /** New grants need room beside the units that are inside the window. */
  lemma WakeFits(c: Counter, now: real, phase: map<Task, Phase>)
    requires OrderlyCounter(c, phase, Tpm)
    ensures var d := Wake(c, now);
      && d.limit == c.limit && Total(d.events) <= Total(c.events)
      && GrantsFit(phase, c.futures, d.futures, Total(d.events), c.limit)
  {
    RpmGate.ExpiredShrinks(c.events, now);
    if |c.waiters| > 0 {
      WokenFits(Total(Expired(c.events, now)), c.limit, c.waiters, c.futures, phase);
    }
  }

  /** The grants after a wake-up: those before, and the others. */
  lemma NewAndOld(phase: map<Task, Phase>, futs: map<nat, FutureState>, futs': map<nat, FutureState>)
    requires GrantedIn(phase, futs) <= GrantedIn(phase, futs')
    ensures var g, g' := GrantedIn(phase, futs), GrantedIn(phase, futs');
      && g' - (g' - g) == g && g' == g + (g' - g) && |g'| == |g| + |g' - g|
      && (g' - g == {} ==> g' == g) && (g' - g != {} ==> |g' - g| >= 1)
  {
    var g, g' := GrantedIn(phase, futs), GrantedIn(phase, futs');
    assert g' == g + (g' - g);
    assert |g + (g' - g)| == |g| + |g' - g|;
  }

  lemma WakeBounded(c: Counter, now: real, phase: map<Task, Phase>, permits: nat, r: nat, x: nat)
    requires OrderlyCounter(c, phase, Tpm) && permits >= 1 && ReservesAtMost(phase, r)
    requires |HoldersIn(phase)| <= permits && Bounded(c, phase, permits, r, x)
    ensures Bounded(Wake(c, now), phase, permits, r, x)
  {
    WakeFits(c, now, phase);
    GrantsBounded(c, Wake(c, now), phase, permits, r, x);
  }

  lemma GrantsBounded(c: Counter, d: Counter, phase: map<Task, Phase>, permits: nat, r: nat, x: nat)
    requires permits >= 1 && ReservesAtMost(phase, r) && |HoldersIn(phase)| <= permits
    requires Bounded(c, phase, permits, r, x) && d.limit == c.limit && Total(d.events) <= Total(c.events)
    requires GrantsFit(phase, c.futures, d.futures, Total(d.events), c.limit)
    ensures Bounded(d, phase, permits, r, x)
  {
    hide Reserved, Allowance, Total, OpenIn, HoldersIn;
    var fits := GrantedIn(phase, d.futures) - GrantedIn(phase, c.futures);
    NewAndOld(phase, c.futures, d.futures);
    if fits != {} {
      BusyHold(d, phase);
      RoomIsBounded(d, phase, fits, permits, r, x);
    }
  }

  // ---- One task moves ----------------------------------------------------------------------------------

  /** What the counter sees of a phase. */
  predicate Unseen(p: Phase) {
    !p.TpmWait? && !IsOpen(p)
  }

  lemma MoveSets(phase: map<Task, Phase>, futs: map<nat, FutureState>, t: Task, p: Phase)
    requires !p.TpmWait?
    ensures var g, g' := GrantedIn(phase, futs), GrantedIn(phase[t := p], futs);
      g' == g - {t} && Reserved(g, phase) == Reserved(g', phase[t := p]) + if t in g then phase[t].reserve else 0
    ensures OpenIn(phase[t := p]) == if IsOpen(p) then OpenIn(phase) + {t} else OpenIn(phase) - {t}
  {
    var g, g' := GrantedIn(phase, futs), GrantedIn(phase[t := p], futs);
    assert g' == g - {t};
    ReservedFrame(g', phase, phase[t := p]);
    if t in g {
      ReservedWithout(g, phase, t);
    } else {
      assert g - {t} == g;
    }
  }

  /** Whoever leaves the gate takes nothing away from the bound. */
  lemma LeaveBounded(c: Counter, d: Counter, phase: map<Task, Phase>, t: Task, p: Phase, permits: nat, r: nat, x: nat)
    requires Bounded(c, phase, permits, r, x) && Unseen(p) && |HoldersIn(phase)| <= permits
    requires d.events == c.events && d.futures == c.futures && d.limit == c.limit
    ensures Bounded(d, phase[t := p], permits, r, x)
  {
    BusyHold(c, phase);
    MoveSets(phase, c.futures, t, p);
    RpmGate.SubsetSize(GrantedIn(phase[t := p], d.futures), GrantedIn(phase, c.futures));
    RpmGate.SubsetSize(OpenIn(phase[t := p]), OpenIn(phase));
    LessBusy(permits, r, x, Busy(c, phase), Busy(d, phase[t := p]));
  }

  /** A granted task records its reserve: the grant becomes units. */
  lemma ResumeBounded(c: Counter, now: real, phase: map<Task, Phase>, t: Task, p: Phase, permits: nat, r: nat, x: nat)
    requires Bounded(c, phase, permits, r, x) && Positive(c.events)
    requires t in GrantedIn(phase, c.futures) && IsOpen(p)
    ensures var d := c.(events := Expired(c.events, now) + [Event(now, phase[t].reserve)]);
            Bounded(d, phase[t := p], permits, r, x)
  {
    var reserve := phase[t].reserve;
    MoveSets(phase, c.futures, t, p);
    RpmGate.ExpiredShrinks(c.events, now);
    SinceLast(Expired(c.events, now), Event(now, reserve), now);
    assert t !in OpenIn(phase);
  }

  /** A task is admitted at once: its reserve fits, with no regard to grants, which others hold. */
  lemma AdmitBounded(c: Counter, phase: map<Task, Phase>, t: Task, p: Phase, permits: nat, r: nat, x: nat)
    requires permits >= 1 && ReservesAtMost(phase[t := p], r) && |HoldersIn(phase[t := p])| <= permits
    requires t in HoldersIn(phase[t := p]) && !p.TpmWait? && Total(c.events) <= c.limit
    ensures Bounded(c, phase[t := p], permits, r, x)
  {
    var phase' := phase[t := p];
    var g := GrantedIn(phase', c.futures);
    BusyHold(c, phase');
    assert g <= HoldersIn(phase') - {t};
    RpmGate.SubsetSize(g, HoldersIn(phase') - {t});
    assert g - {} == g && Reserved({}, phase') == 0;
    RoomIsBounded(c, phase', {}, permits, r, x);
  }

  // ---- Settlement -----------------------------------------------------------------------------------------

  lemma {:induction false} RefundedTotal(ev: seq<Event>, amount: nat)
    requires Positive(ev)
    ensures Total(Refunded(ev, amount)) == Clip(Total(ev) - amount)
    decreases |ev|
  {
    SinceBounds(ev, 0.0);
    if amount > 0 && |ev| > 0 {
      var init, last := ev[..|ev| - 1], ev[|ev| - 1];
      SinceBounds(init, 0.0);
      if last.n <= amount {
        RefundedTotal(init, amount - last.n);
      } else {
        SinceLast(init, Event(last.ts, last.n - amount), 0.0);
      }
    }
  }

  /** What a refund of the reserve takes off the counter. */
  function GivenBack(c: Counter, reserved: nat): nat {
    var total := Clip(Total(c.events));
    if reserved < total then reserved else total
  }

  /** The token of `t` is settled: after the refund and its wake-up. */
  lemma SettledFrame(phase: map<Task, Phase>, t: Task, p: Phase, r: nat)
    requires t in OpenIn(phase) && Unseen(p) && p.Holding? && p.token.reserved == phase[t].token.reserved
    requires ReservesAtMost(phase, r)
    ensures HoldersIn(phase[t := p]) == HoldersIn(phase) && t in HoldersIn(phase)
    ensures ReservesAtMost(phase[t := p], r) && p.token.reserved <= r
  {
  }

  lemma SettledLevel(c: Counter, phase: map<Task, Phase>, t: Task, p: Phase, permits: nat, r: nat, x: nat)
    requires Bounded(c, phase, permits, r, x) && |HoldersIn(phase)| <= permits && t in OpenIn(phase) && Unseen(p)
    ensures Level(c, phase[t := p]) + x <= c.limit + Allowance(permits, r, x, Busy(c, phase[t := p]))
  {
    hide Allowance, Reserved, Total, HoldersIn;
    BusyHold(c, phase);
    MoveSets(phase, c.futures, t, p);
    assert |OpenIn(phase) - {t}| == |OpenIn(phase)| - 1;
    assert t !in GrantedIn(phase, c.futures);
    assert GrantedIn(phase, c.futures) - {t} == GrantedIn(phase, c.futures);
    LessBusy(permits, r, x, Busy(c, phase), Busy(c, phase[t := p]));
  }

  /** The token of `t` is settled: after the refund and its wake-up. */
  lemma RefundBounded(c: Counter, now: real, phase: map<Task, Phase>, t: Task, p: Phase, permits: nat, r: nat, x: nat)
    requires OrderlyCounter(c, phase[t := p], Tpm) && c.limit >= 1 && permits >= 1
    requires Bounded(c, phase, permits, r, x) && ReservesAtMost(phase, r) && |HoldersIn(phase)| <= permits
    requires t in OpenIn(phase) && Unseen(p) && p.Holding? && p.token.reserved == phase[t].token.reserved
    ensures var reserved := p.token.reserved;
            var d := if reserved != 0 then Refund(c, reserved, now) else c;
            && d.limit == c.limit && OrderlyCounter(d, phase[t := p], Tpm)
            && Settling(d, phase[t := p], permits, r, x, GivenBack(c, reserved))
  {
    hide Bounded, Level, HoldersIn, OpenIn, Allowance, Refunded, ReservesAtMost, Total;
    var reserved, phase' := p.token.reserved, phase[t := p];
    SettledLevel(c, phase, t, p, permits, r, x);
    SettledFrame(phase, t, p, r);
    SinceBounds(c.events, now);
    RefundedTotal(c.events, reserved);
    RefundedPositive(c.events, reserved);
    if reserved != 0 {
      var c1 := c.(events := Refunded(c.events, reserved));
      WakeFits(c1, now, phase');
      WakeOrderly(c1, now, phase', Tpm);
      RefundSettles(c, c1, Wake(c1, now), phase', t, permits, r, x, GivenBack(c, reserved));
    }
  }

  /** Between refund and charge: there is room for what was given back and `x` more. */
  ghost predicate Settling(d: Counter, phase: map<Task, Phase>, permits: nat, r: nat, x: nat, back: nat) {
    Level(d, phase) + back + x <= d.limit + Allowance(permits, r, x, Busy(d, phase))
  }

  lemma RefundSettles(c: Counter, c1: Counter, d: Counter, phase: map<Task, Phase>, t: Task, permits: nat, r: nat,
                      x: nat, back: nat)
    requires permits >= 1 && ReservesAtMost(phase, r) && |HoldersIn(phase)| <= permits && back <= r
    requires t in HoldersIn(phase) && Unseen(phase[t])
    requires c1.futures == c.futures && c1.limit == c.limit && Total(c1.events) == Total(c.events) - back
    requires Level(c, phase) + x <= c.limit + Allowance(permits, r, x, Busy(c, phase))
    requires d.limit == c1.limit && Total(d.events) <= Total(c1.events)
    requires GrantsFit(phase, c1.futures, d.futures, Total(d.events), c1.limit)
    ensures Settling(d, phase, permits, r, x, back)
  {
    hide Allowance, Total, Reserved;
    var g, g' := GrantedIn(phase, c.futures), GrantedIn(phase, d.futures);
    var fits := g' - g;
    NewAndOld(phase, c.futures, d.futures);
    if fits != {} {
      ReservedJoins(g, fits, phase);
      ReservedAtMost(g, phase, r);
      OneIsElsewhere(d, phase, t);
      AllowanceCovers(permits, r, x, Busy(d, phase), |g|);
    }
  }

  /** A permit that is in use, but not at this gate. */
  lemma OneIsElsewhere(c: Counter, phase: map<Task, Phase>, t: Task)
    requires t in HoldersIn(phase) && Unseen(phase[t])
    ensures Busy(c, phase) < |HoldersIn(phase)| && |GrantedIn(phase, c.futures)| <= Busy(c, phase)
  {
    var g, o := GrantedIn(phase, c.futures), OpenIn(phase);
    assert g !! o && |g + o| == |g| + |o|;
    assert g + o <= HoldersIn(phase) - {t};
    RpmGate.SubsetSize(g + o, HoldersIn(phase) - {t});
  }

  /** The charge of the real cost, which asks nobody. */
  lemma CostBounded(d: Counter, tokens: int, now: real, phase: map<Task, Phase>, permits: nat, r: nat, x: nat,
                    back: nat)
    requires OrderlyCounter(d, phase, Tpm) && d.limit >= 1 && permits >= 1 && ReservesAtMost(phase, r)
    requires |HoldersIn(phase)| <= permits && Settling(d, phase, permits, r, x, back) && tokens <= back + x
    ensures Bounded(if tokens > 0 then Charge(d, tokens, now) else d, phase, permits, r, x)
  {
    if tokens > 0 {
      var kept := Expired(d.events, now);
      RpmGate.ExpiredShrinks(d.events, now);
      SinceLast(kept, Event(now, tokens), now);
      var mid := d.(events := kept + [Event(now, tokens)]);
      assert Bounded(mid, phase, permits, r, x);
      assert OrderlyCounter(mid, phase, Tpm);
      WakeBounded(mid, now, phase, permits, r, x);
    }
  }

  // ---- Every step ----------------------------------------------------------------------------------------

  /** What the bound assumes of a step: the TPM limit starts at one or more and is never lowered, a reserve
      is at most `r`, and a settled cost exceeds what the refund gave back by at most `x`. */
  ghost predicate Modest(s: State, step: Step, r: nat, x: nat) {
    && (step.SetTpm? ==> step.limit >= (if s.tpm.Some? then s.tpm.value.limit else 1))
    && (step.TpmAcquire? ==> ProvisionalReserve(step.maxTokens) <= r)
    && (step.Settle? && s.tpm.Some? && step.task in s.phase && IsOpen(s.phase[step.task]) ==>
          step.tokens <= GivenBack(s.tpm.value, s.phase[step.task].token.reserved) + x)
  }

  ghost predicate LegalModest(s: State, steps: seq<Step>, r: nat, x: nat)
    decreases |steps|
  {
    |steps| > 0 ==>
      && Enabled(s, steps[0]) && Modest(s, steps[0], r, x)
      && LegalModest(Take(s, steps[0]), steps[1..], r, x)
  }

  lemma {:induction false} ModestIsLegal(s: State, steps: seq<Step>, r: nat, x: nat)
    requires LegalModest(s, steps, r, x)
    ensures Legal(s, steps)
    decreases |steps|
  {
    if |steps| > 0 {
      ModestIsLegal(Take(s, steps[0]), steps[1..], r, x);
    }
  }

  /** The inductive invariant. */
  ghost predicate Inv(s: State, r: nat, x: nat) {
    && OrderlyState(s) && s.permits >= 1 && |HoldersIn(s.phase)| <= s.permits && ReservesAtMost(s.phase, r)
    && (s.tpm.Some? ==> s.tpm.value.limit >= 1 && Bounded(s.tpm.value, s.phase, s.permits, r, x))
  }

  /** A step that the TPM counter does not see. */
  ghost predicate Elsewhere(s: State, s': State) {
    && s'.tpm == s.tpm
    && (forall t :: t in s.phase && !Unseen(s.phase[t]) ==> t in s'.phase && s'.phase[t] == s.phase[t])
    && (forall t :: t in s'.phase && !Unseen(s'.phase[t]) ==> t in s.phase && s'.phase[t] == s.phase[t])
  }

  lemma ElsewhereBounded(s: State, s': State, r: nat, x: nat)
    requires Elsewhere(s, s') && s.tpm.Some? && Bounded(s.tpm.value, s.phase, s.permits, r, x)
    ensures Bounded(s'.tpm.value, s'.phase, s.permits, r, x)
  {
    var futs := s.tpm.value.futures;
    assert GrantedIn(s'.phase, futs) == GrantedIn(s.phase, futs);
    assert OpenIn(s'.phase) == OpenIn(s.phase);
    ReservedFrame(GrantedIn(s.phase, futs), s.phase, s'.phase);
  }

  /** Permits are never over-used. */
  lemma HoldersStay(s: State, step: Step)
    requires Enabled(s, step) && |HoldersIn(s.phase)| <= s.permits
    ensures |HoldersIn(Take(s, step).phase)| <= s.permits && Take(s, step).permits == s.permits
  {
    var s' := Take(s, step);
    if step.Enter? {
      assert HoldersIn(s.phase) == Holders(s);
      assert HoldersIn(s'.phase) == HoldersIn(s.phase) + {step.task};
    } else {
      assert HoldersIn(s'.phase) <= HoldersIn(s.phase);
      RpmGate.SubsetSize(HoldersIn(s'.phase), HoldersIn(s.phase));
    }
  }

  lemma ReservesStay(s: State, step: Step, r: nat, x: nat)
    requires Enabled(s, step) && Modest(s, step, r, x) && ReservesAtMost(s.phase, r)
    ensures ReservesAtMost(Take(s, step).phase, r)
  {
  }

  lemma SetTpmBounds(s: State, limit: nat, r: nat, x: nat)
    requires Inv(s, r, x) && Modest(s, SetTpm(limit), r, x)
    ensures var c := Take(s, SetTpm(limit)).tpm.value; c.limit >= 1 && Bounded(c, s.phase, s.permits, r, x)
  {
    if s.tpm.None? {
      var c := Counter(limit, [], [], map[]);
      assert GrantedIn(s.phase, c.futures) == {};
      assert Total([]) == 0 && Reserved({}, s.phase) == 0;
      RoomIsBounded(c, s.phase, {}, s.permits, r, x);
    } else {
      var c := s.tpm.value;
      WakeFits(c.(limit := limit), s.now, s.phase);
      WakeBounded(c.(limit := limit), s.now, s.phase, s.permits, r, x);
    }
  }

  lemma AdmittedBounds(c: Counter, now: real, phase: map<Task, Phase>, t: Task, p: Phase, reserve: nat, permits: nat,
                       r: nat, x: nat)
    requires OrderlyCounter(c, phase[t := p], Tpm) && c.limit >= 1 && reserve >= 1 && permits >= 1
    requires Total(Expired(c.events, now)) + reserve <= c.limit && !p.TpmWait?
    requires ReservesAtMost(phase[t := p], r) && |HoldersIn(phase[t := p])| <= permits && t in HoldersIn(phase[t := p])
    ensures var d := Charge(c.(events := Expired(c.events, now)), reserve, now);
            d.limit == c.limit && Bounded(d, phase[t := p], permits, r, x)
  {
    hide Bounded, Reserved, Total, HoldersIn, ReservesAtMost;
    var kept := Expired(c.events, now);
    RpmGate.ExpiredShrinks(c.events, now);
    RpmGate.ExpiredTwice(c.events, now);
    SinceLast(kept, Event(now, reserve), now);
    var mid := c.(events := kept + [Event(now, reserve)]);
    AdmitBounded(mid, phase, t, p, permits, r, x);
    WakeFits(mid, now, phase[t := p]);
    WakeBounded(mid, now, phase[t := p], permits, r, x);
  }

  lemma TpmAcquireBounds(s: State, t: Task, maxTokens: int, r: nat, x: nat)
    requires Inv(s, r, x) && Enabled(s, TpmAcquire(t, maxTokens)) && Modest(s, TpmAcquire(t, maxTokens), r, x)
    requires s.tpm.Some?
    ensures var s' := Take(s, TpmAcquire(t, maxTokens));
      s'.tpm.Some? && s'.tpm.value.limit >= 1 && Bounded(s'.tpm.value, s'.phase, s.permits, r, x)
  {
    hide Bounded, ReservesAtMost, Charge;
    var step := TpmAcquire(t, maxTokens);
    var c, s', reserve := s.tpm.value, Take(s, step), ProvisionalReserve(maxTokens);
    HoldersStay(s, step);
    ReservesStay(s, step, r, x);
    NotQueued(c, s.phase, Tpm, t);
    RpmGate.ExpiredShrinks(c.events, s.now);
    if Total(Expired(c.events, s.now)) + reserve <= c.limit && |c.waiters| == 0 {
      OthersMove(c, s.phase, Tpm, t, s'.phase[t]);
      AdmittedBounds(c, s.now, s.phase, t, s'.phase[t], reserve, s.permits, r, x);
    } else {
      QueueBounded(c, s'.tpm.value, s.phase, t, reserve, s.permits, r, x);
    }
  }

  /** Whoever queues is neither granted nor charged. */
  lemma QueueBounded(c: Counter, d: Counter, phase: map<Task, Phase>, t: Task, reserve: nat, permits: nat, r: nat,
                     x: nat)
    requires Bounded(c, phase, permits, r, x) && t in phase && Unseen(phase[t]) && Positive(c.events)
    requires d.limit == c.limit && Total(d.events) <= Total(c.events) && d.futures == c.futures[t := Pending]
    ensures Bounded(d, phase[t := TpmWait(reserve)], permits, r, x)
  {
    var phase' := phase[t := TpmWait(reserve)];
    assert GrantedIn(phase', d.futures) == GrantedIn(phase, c.futures);
    assert OpenIn(phase') == OpenIn(phase);
    ReservedFrame(GrantedIn(phase, c.futures), phase, phase');
  }

  lemma ResumedBounds(c: Counter, now: real, phase: map<Task, Phase>, t: Task, p: Phase, permits: nat, r: nat, x: nat)
    requires OrderlyCounter(c, phase[t := p], Tpm) && c.limit >= 1 && permits >= 1
    requires t in GrantedIn(phase, c.futures) && IsOpen(p) && Bounded(c, phase, permits, r, x)
    requires ReservesAtMost(phase[t := p], r) && |HoldersIn(phase[t := p])| <= permits
    ensures var d := Charge(c, phase[t].reserve, now);
            d.limit == c.limit && Bounded(d, phase[t := p], permits, r, x)
  {
    hide Bounded, Reserved, Total, HoldersIn, ReservesAtMost;
    var reserve := phase[t].reserve;
    if reserve > 0 {
      RpmGate.ExpiredShrinks(c.events, now);
      ResumeBounded(c, now, phase, t, p, permits, r, x);
      var mid := c.(events := Expired(c.events, now) + [Event(now, reserve)]);
      WakeFits(mid, now, phase[t := p]);
      WakeBounded(mid, now, phase[t := p], permits, r, x);
    } else {
      NothingRecorded(c, phase, t, p, permits, r, x);
    }
  }

  lemma TpmResumeBounds(s: State, t: Task, r: nat, x: nat)
    requires Inv(s, r, x) && Enabled(s, TpmResume(t))
    ensures var s' := Take(s, TpmResume(t));
      s'.tpm.Some? && s'.tpm.value.limit >= 1 && Bounded(s'.tpm.value, s'.phase, s.permits, r, x)
  {
    hide Bounded, ReservesAtMost, Charge;
    var step := TpmResume(t);
    var c, s' := s.tpm.value, Take(s, step);
    HoldersStay(s, step);
    MovesToOpen(s, t, r);
    NotQueued(c, s.phase, Tpm, t);
    OthersMove(c, s.phase, Tpm, t, s'.phase[t]);
    assert t in GrantedIn(s.phase, c.futures);
    ResumedBounds(c, s.now, s.phase, t, s'.phase[t], s.permits, r, x);
  }

  lemma MovesToOpen(s: State, t: Task, r: nat)
    requires Enabled(s, TpmResume(t)) && ReservesAtMost(s.phase, r)
    ensures ReservesAtMost(Take(s, TpmResume(t)).phase, r)
  {
  }

  lemma NothingRecorded(c: Counter, phase: map<Task, Phase>, t: Task, p: Phase, permits: nat, r: nat, x: nat)
    requires Bounded(c, phase, permits, r, x) && t in GrantedIn(phase, c.futures) && phase[t].reserve == 0 && IsOpen(p)
    ensures Bounded(c, phase[t := p], permits, r, x)
  {
    MoveSets(phase, c.futures, t, p);
    assert t !in OpenIn(phase);
  }

  /** Settling: the refund, then the cost. */
  lemma SettleBounds(s: State, t: Task, tokens: int, r: nat, x: nat)
    requires Inv(s, r, x) && s.tpm.Some? && t in s.phase && s.phase[t].Holding?
    requires IsOpen(s.phase[t]) ==> tokens <= GivenBack(s.tpm.value, s.phase[t].token.reserved) + x
    ensures var s' := SettleToken(s, t, tokens);
      s'.tpm.Some? && s'.tpm.value.limit >= 1 && Bounded(s'.tpm.value, s'.phase, s.permits, r, x)
  {
    var c, token := s.tpm.value, s.phase[t].token;
    var p := Holding(token.(settled := true));
    var phase' := s.phase[t := p];
    NotQueued(c, s.phase, Tpm, t);
    OthersMove(c, s.phase, Tpm, t, p);
    if IsOpen(s.phase[t]) {
      assert t in OpenIn(s.phase);
      RefundBounded(c, s.now, s.phase, t, p, s.permits, r, x);
      SettledFrame(s.phase, t, p, r);
      var d := if token.reserved != 0 then Refund(c, token.reserved, s.now) else c;
      CostBounded(d, tokens, s.now, phase', s.permits, r, x, GivenBack(c, token.reserved));
      SettledLimit(c, token.reserved, tokens, s.now);
      assert SettleToken(s, t, tokens).tpm.value == if tokens > 0 then Charge(d, tokens, s.now) else d;
    } else if !token.settled {
      LeaveBounded(c, c, s.phase, t, p, s.permits, r, x);
    }
  }

  lemma SettledLimit(c: Counter, reserved: int, tokens: int, now: real)
    ensures SettleOn(c, reserved, tokens, now).limit == c.limit
  {
  }

  lemma LeaveBounds(s: State, t: Task, r: nat, x: nat)
    requires Inv(s, r, x) && s.tpm.Some? && Enabled(s, Leave(t))
    ensures var s' := Take(s, Leave(t));
      s'.tpm.Some? && s'.tpm.value.limit >= 1 && Bounded(s'.tpm.value, s'.phase, s.permits, r, x)
  {
    SettleBounds(s, t, 0, r, x);
    var s1 := SettleToken(s, t, 0);
    HoldersStay(s, Settle(t, 0));
    LeaveBounded(s1.tpm.value, s1.tpm.value, s1.phase, t, Left, s.permits, r, x);
  }

  lemma CancelBounds(s: State, t: Task, r: nat, x: nat)
    requires Inv(s, r, x) && s.tpm.Some? && Enabled(s, Cancel(t))
    ensures var s' := Take(s, Cancel(t));
      s'.tpm.Some? && s'.tpm.value.limit >= 1 && Bounded(s'.tpm.value, s'.phase, s.permits, r, x)
  {
    if !s.phase[t].RpmWait? {
      var c := s.tpm.value;
      assert GrantedIn(s.phase, CancelFuture(c, t).futures) == GrantedIn(s.phase, c.futures);
    }
  }

  lemma AbortBounds(s: State, t: Task, r: nat, x: nat)
    requires Inv(s, r, x) && s.tpm.Some? && Enabled(s, Abort(t))
    ensures var s' := Take(s, Abort(t));
      s'.tpm.Some? && s'.tpm.value.limit >= 1 && Bounded(s'.tpm.value, s'.phase, s.permits, r, x)
  {
    LeaveBounded(s.tpm.value, Take(s, Abort(t)).tpm.value, s.phase, t, Left, s.permits, r, x);
  }

  lemma StepBounds(s: State, step: Step, r: nat, x: nat)
    requires Inv(s, r, x) && Enabled(s, step) && Modest(s, step, r, x) && s.tpm.Some?
    ensures var s' := Take(s, step);
      s'.tpm.Some? && s'.tpm.value.limit >= 1 && Bounded(s'.tpm.value, s'.phase, s.permits, r, x)
  {
    hide Inv, Bounded;
    match step {
      case SetTpm(limit) => SetTpmBounds(s, limit, r, x);
      case TpmAcquire(t, maxTokens) => TpmAcquireBounds(s, t, maxTokens, r, x);
      case TpmResume(t) => TpmResumeBounds(s, t, r, x);
      case Settle(t, tokens) => SettleBounds(s, t, tokens, r, x);
      case Leave(t) => LeaveBounds(s, t, r, x);
      case Cancel(t) => CancelBounds(s, t, r, x);
      case Abort(t) => AbortBounds(s, t, r, x);
      case _ => OtherStepBounds(s, step, r, x);
    }
  }

  lemma OtherStepBounds(s: State, step: Step, r: nat, x: nat)
    requires Inv(s, r, x) && Enabled(s, step) && s.tpm.Some?
    requires step.Tick? || step.SetRpm? || step.Enter? || step.RpmAcquire? || step.RpmResume?
    ensures var s' := Take(s, step);
      s'.tpm.Some? && s'.tpm.value.limit >= 1 && Bounded(s'.tpm.value, s'.phase, s.permits, r, x)
  {
    hide Bounded, OrderlyState;
    assert Elsewhere(s, Take(s, step));
    ElsewhereBounded(s, Take(s, step), r, x);
  }

  lemma StepKeeps(s: State, step: Step, r: nat, x: nat)
    requires Inv(s, r, x) && Enabled(s, step) && Modest(s, step, r, x)
    ensures Inv(Take(s, step), r, x) && Take(s, step).permits == s.permits
  {
    hide Bounded, OrderlyState, Modest, ReservesAtMost;
    StaysOrderly(s, step);
    HoldersStay(s, step);
    ReservesStay(s, step, r, x);
    if s.tpm.Some? {
      StepBounds(s, step, r, x);
    } else if step.SetTpm? {
      SetTpmBounds(s, step.limit, r, x);
    } else {
      StaysWithout(s, step);
    }
  }

  lemma StaysWithout(s: State, step: Step)
    requires Enabled(s, step) && s.tpm.None? && !step.SetTpm?
    ensures Take(s, step).tpm.None?
  {
  }

  lemma {:induction false} RunKeeps(s: State, steps: seq<Step>, r: nat, x: nat)
    requires Inv(s, r, x) && LegalModest(s, steps, r, x)
    ensures Legal(s, steps) && Inv(After(s, steps), r, x) && After(s, steps).permits == s.permits
    decreases |steps|
  {
    hide Inv, Modest, Take;
    if |steps| > 0 {
      StepKeeps(s, steps[0], r, x);
      RunKeeps(Take(s, steps[0]), steps[1..], r, x);
    }
  }

  lemma AtTheStart(permits: nat, start: real, r: nat, x: nat)
    requires permits >= 1
    ensures Inv(Start(permits, start), r, x)
  {
    assert HoldersIn(Start(permits, start).phase) == {};
  }

  /** TPM OVERSHOOT. After any run in which the limit is never lowered, reserves are at most `r`, and each
      settled cost exceeds what the refund gave back by at most `x`, the tokens inside the window and the
      reserves granted and not yet charged exceed the limit by at most one reserve for each permit but
      one, and `x` for each permit. With costs within reserves that are still on the counter `x` is 0; any
      bound on the cost of a call will do for it. */
  lemma TpmOvershoot(permits: nat, start: real, steps: seq<Step>, r: nat, x: nat)
    requires permits >= 1 && LegalModest(Start(permits, start), steps, r, x)
    ensures Legal(Start(permits, start), steps)
    ensures var s := After(Start(permits, start), steps);
      s.tpm.Some? ==>
        && Total(s.tpm.value.events) + Reserved(Granted(s), s.phase)
           <= s.tpm.value.limit + (permits - 1) * r + permits * x
        && Total(Expired(s.tpm.value.events, s.now)) + Reserved(Granted(s), s.phase)
           <= s.tpm.value.limit + (permits - 1) * r + permits * x
  {
    hide Take, Modest, Reserved, Expired, ReservesAtMost;
    var s0 := Start(permits, start);
    AtTheStart(permits, start, r, x);
    RunKeeps(s0, steps, r, x);
    var s := After(s0, steps);
    if s.tpm.Some? {
      var c := s.tpm.value;
      BusyHold(c, s.phase);
      LessBusy(permits, r, x, Busy(c, s.phase), 0);
      RpmGate.ExpiredShrinks(c.events, s.now);
    }
  }
}
