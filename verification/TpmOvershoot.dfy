/** A schedule that reaches `TpmGate.TpmOvershoot`, for every limit, reserve, excess and number of permits. */
module TpmOvershoot {
  import opened Options
  import opened SlidingWindow
  import opened SlotProtocol
  import opened TpmGate
  import SlotOvershoot

  // ---- Growing runs ------------------------------------------------------------------------------

  lemma {:induction false} Append(s: State, a: seq<Step>, b: seq<Step>, r: nat, x: nat)
    requires LegalModest(s, a, r, x) && Legal(s, a) && LegalModest(After(s, a), b, r, x) && Legal(After(s, a), b)
    ensures LegalModest(s, a + b, r, x) && Legal(s, a + b) && After(s, a + b) == After(After(s, a), b)
    decreases |a|
  {
    hide Modest, Take;
    if |a| == 0 {
      assert a + b == b;
    } else {
      assert (a + b)[1..] == a[1..] + b;
      Append(Take(s, a[0]), a[1..], b, r, x);
    }
  }

  /** A run of the endpoint from its creation. */
  ghost predicate Running(permits: nat, steps: seq<Step>, r: nat, x: nat) {
    LegalModest(Start(permits, 0.0), steps, r, x) && Legal(Start(permits, 0.0), steps)
  }

  /** Extends a run by one step. */
  lemma Then(permits: nat, steps: seq<Step>, step: Step, r: nat, x: nat) returns (longer: seq<Step>)
    requires Running(permits, steps, r, x)
    requires var s := After(Start(permits, 0.0), steps); Enabled(s, step) && Modest(s, step, r, x)
    ensures Running(permits, longer, r, x)
    ensures After(Start(permits, 0.0), longer) == Take(After(Start(permits, 0.0), steps), step)
  {
    hide Modest, Take, Enabled;
    var s := After(Start(permits, 0.0), steps);
    assert [step][1..] == [];
    Append(Start(permits, 0.0), steps, [step], r, x);
    longer := steps + [step];
  }

  // ---- A full window -----------------------------------------------------------------------------------

  /** The tokens of `served` calls of one token each: `r` at time 0, the others at time 1. */
  ghost predicate UnitsAt(ev: seq<Event>, r: nat, served: nat) {
    && |ev| == served && SlotOvershoot.UnitEvents(ev)
    && forall i :: 0 <= i < served ==> ev[i].ts == if i < r then 0.0 else 1.0
  }

  ghost predicate Filling(s: State, permits: nat, limit: nat, r: nat, served: nat) {
    && s.permits == permits && s.rpm.None? && s.tpm.Some?
    && s.tpm.value == Counter(limit, s.tpm.value.events, [], map[]) && UnitsAt(s.tpm.value.events, r, served)
    && s.now == (if served < r then 0.0 else 1.0)
    && (forall t: Task :: t in s.phase <==> t < served)
    && (forall t: Task :: t in s.phase ==> s.phase[t] == Left)
  }

  /** Room for one more, and nobody queues. */
  ghost predicate Roomy(c: Counter, now: real) {
    && c.limit >= 1 && |c.waiters| == 0 && Expired(c.events, now) == c.events && now >= 0.0
    && (forall i :: 0 <= i < |c.events| ==> c.events[i].ts <= now)
    && 0 <= Total(c.events) && Total(c.events) + 1 <= c.limit
  }

  function OneMore(c: Counter, now: real): Counter {
    c.(events := c.events + [Event(now, 1)])
  }

  /** A call of one token on the counter: admitted, charged; then refunded, and charged again. */
  lemma OneToken(c: Counter, now: real, t: Task)
    requires Roomy(c, now)
    ensures Acquire(c, 1, now, t) == (c, true) && Charge(c, 1, now) == OneMore(c, now)
    ensures SettleOn(OneMore(c, now), 1, 1, now) == OneMore(c, now) && Total(OneMore(c, now).events) >= 1
  {
    var one := Event(now, 1);
    SinceLast(c.events, one, 0.0);
    assert (c.events + [one])[..|c.events|] == c.events;
    assert Refunded(c.events + [one], 1) == Refunded(c.events, 0) == c.events;
  }

  /** One call of one token passes both gates. */
  lemma Pass(permits: nat, steps: seq<Step>, t: Task, r: nat, x: nat) returns (longer: seq<Step>)
    requires Running(permits, steps, r, x) && r >= 1
    requires var s := After(Start(permits, 0.0), steps);
      t !in s.phase && |Holders(s)| < s.permits && s.rpm.None? && s.tpm.Some? && Roomy(s.tpm.value, s.now)
    ensures Running(permits, longer, r, x)
    ensures var s, s' := After(Start(permits, 0.0), steps), After(Start(permits, 0.0), longer);
      && s' == s.(tpm := s'.tpm, order := s'.order, phase := s'.phase)
      && s'.phase == s.phase[t := Holding(Token(true, 1, s.now, false))]
      && s'.tpm == Some(OneMore(s.tpm.value, s.now))
  {
    hide Roomy, Acquire, Charge, Total, Expired;
    var s := After(Start(permits, 0.0), steps);
    OneToken(s.tpm.value, s.now, t);
    longer := Then(permits, steps, Enter(t), r, x);
    longer := Then(permits, longer, RpmAcquire(t), r, x);
    longer := Then(permits, longer, TpmAcquire(t, 0), r, x);
    assert After(Start(permits, 0.0), longer).phase == s.phase[t := Holding(Token(true, 1, s.now, false))];
  }

  /** It is settled at what it reserved, and leaves. */
  lemma Serve(permits: nat, steps: seq<Step>, t: Task, r: nat, x: nat) returns (longer: seq<Step>)
    requires Running(permits, steps, r, x) && r >= 1
    requires var s := After(Start(permits, 0.0), steps);
      t !in s.phase && |Holders(s)| < s.permits && s.rpm.None? && s.tpm.Some? && Roomy(s.tpm.value, s.now)
    ensures Running(permits, longer, r, x)
    ensures var s, s' := After(Start(permits, 0.0), steps), After(Start(permits, 0.0), longer);
      && s' == s.(tpm := s'.tpm, order := s'.order, phase := s.phase[t := Left], billed := s'.billed)
      && s'.tpm == Some(OneMore(s.tpm.value, s.now))
  {
    hide Roomy, SettleOn, Acquire, Charge, Total, Expired;
    var s := After(Start(permits, 0.0), steps);
    OneToken(s.tpm.value, s.now, t);
    longer := Pass(permits, steps, t, r, x);
    longer := Then(permits, longer, Settle(t, 1), r, x);
    longer := Then(permits, longer, Leave(t), r, x);
    assert After(Start(permits, 0.0), longer).phase == s.phase[t := Left];
  }

  lemma {:induction false} Fill(permits: nat, limit: nat, r: nat, x: nat, served: nat) returns (steps: seq<Step>)
    requires permits >= 1 && 1 <= r <= limit && served <= limit
    ensures Running(permits, steps, r, x) && Filling(After(Start(permits, 0.0), steps), permits, limit, r, served)
  {
    var s0 := Start(permits, 0.0);
    if served == 0 {
      steps := Then(permits, [], SetTpm(limit), r, x);
      assert After(s0, steps).phase == map[];
    } else {
      var t := served - 1;
      steps := Fill(permits, limit, r, x, t);
      var s := After(s0, steps);
      SlotOvershoot.UnitTotal(s.tpm.value.events);
      assert Holders(s) == {};
      steps := Serve(permits, steps, t, r, x);
      assert forall u: nat :: u in After(s0, steps).phase <==> u < served;
      if served == r {
        ghost var before := After(s0, steps);
        steps := Then(permits, steps, Tick(1.0), r, x);
        assert After(s0, steps) == before.(now := 1.0);
      }
    }
  }

  // ---- A queue behind it ----------------------------------------------------------------------------------

  /** `queued` tasks wait for `r` tokens each behind a full window; the tasks `limit ..` hold permits. */
  ghost predicate Queueing(s: State, permits: nat, limit: nat, r: nat, queued: nat) {
    && s.permits == permits && s.rpm.None? && s.tpm.Some? && s.tpm.value.limit == limit && s.now == 1.0
    && var c := s.tpm.value;
    && UnitsAt(c.events, r, limit) && |c.waiters| == queued
    && (forall i :: 0 <= i < queued ==> c.waiters[i] == Waiter(r, limit + i))
    && (forall t: Task :: t in s.phase <==> t < limit + queued)
    && (forall t: Task :: t in s.phase ==> s.phase[t] == if t < limit then Left else TpmWait(r))
    && (forall t: Task :: limit <= t < limit + queued ==> t in c.futures && c.futures[t].Pending?)
  }

  function Behind(c: Counter, r: nat, t: Task): Counter {
    c.(waiters := c.waiters + [Waiter(r, t)], futures := c.futures[t := Pending])
  }

  lemma FullQueues(c: Counter, r: nat, limit: nat, t: Task)
    requires UnitsAt(c.events, r, limit) && c.limit == limit && 1 <= r <= limit
    ensures Acquire(c, r, 1.0, t) == (Behind(c, r, t), false)
  {
    SlotOvershoot.UnitTotal(c.events);
    assert Expired(c.events, 1.0) == c.events;
  }

  lemma QueueOne(permits: nat, steps: seq<Step>, maxTokens: int, t: Task, x: nat) returns (longer: seq<Step>)
    requires Running(permits, steps, ProvisionalReserve(maxTokens), x)
    requires var s, r := After(Start(permits, 0.0), steps), ProvisionalReserve(maxTokens);
      && t !in s.phase && |Holders(s)| < s.permits && s.rpm.None? && s.tpm.Some? && s.now == 1.0
      && r <= s.tpm.value.limit && UnitsAt(s.tpm.value.events, r, s.tpm.value.limit)
    ensures Running(permits, longer, ProvisionalReserve(maxTokens), x)
    ensures var s, s' := After(Start(permits, 0.0), steps), After(Start(permits, 0.0), longer);
      && s' == s.(tpm := s'.tpm, order := s'.order, phase := s'.phase)
      && s'.phase == s.phase[t := TpmWait(ProvisionalReserve(maxTokens))]
      && s'.tpm == Some(Behind(s.tpm.value, ProvisionalReserve(maxTokens), t))
  {
    hide Acquire, UnitsAt, Charge;
    var s, r := After(Start(permits, 0.0), steps), ProvisionalReserve(maxTokens);
    FullQueues(s.tpm.value, r, s.tpm.value.limit, t);
    longer := Then(permits, steps, Enter(t), r, x);
    longer := Then(permits, longer, RpmAcquire(t), r, x);
    longer := Then(permits, longer, TpmAcquire(t, maxTokens), r, x);
    assert After(Start(permits, 0.0), longer).phase == s.phase[t := TpmWait(r)];
  }

  lemma {:induction false} QueueUp(permits: nat, limit: nat, maxTokens: int, x: nat, queued: nat)
    returns (steps: seq<Step>)
    requires permits >= 1 && ProvisionalReserve(maxTokens) <= limit && queued <= permits
    ensures var r := ProvisionalReserve(maxTokens);
      Running(permits, steps, r, x) && Queueing(After(Start(permits, 0.0), steps), permits, limit, r, queued)
    decreases queued
  {
    var r := ProvisionalReserve(maxTokens);
    if queued == 0 {
      steps := Fill(permits, limit, r, x, limit);
    } else {
      steps := QueueUp(permits, limit, maxTokens, x, queued - 1);
      var s := After(Start(permits, 0.0), steps);
      var t := limit + queued - 1;
      SlotOvershoot.RangeSize(limit, queued - 1, Holders(s));
      steps := QueueOne(permits, steps, maxTokens, t, x);
    }
  }

  // ---- Grants that do not see each other -------------------------------------------------------------------

  lemma {:induction false} OldDropped(ev: seq<Event>, k: nat)
    requires k <= |ev| && forall i :: 0 <= i < |ev| ==> (ev[i].ts < 1.0 <==> i < k)
    ensures Expired(ev, 61.0) == ev[k..]
    decreases k
  {
    if k > 0 {
      OldDropped(ev[1..], k - 1);
    }
  }

  /** All tokens in the window are young, `limit - r` of them. */
  ghost predicate Young(ev: seq<Event>, total: int) {
    (forall i :: 0 <= i < |ev| ==> ev[i].ts >= 1.0) && Total(ev) == total
  }

  lemma YoungStay(ev: seq<Event>, total: int)
    requires Young(ev, total)
    ensures Expired(ev, 61.0) == ev
  {
  }

  /** `r` tokens have left the window; `granted` waiters were woken, none has charged. */
  ghost predicate Waking(s: State, permits: nat, limit: nat, r: nat, granted: nat) {
    && s.permits == permits && s.tpm.Some? && s.tpm.value.limit == limit && s.now == 61.0
    && var c := s.tpm.value;
    && Young(Expired(c.events, 61.0), limit - r) && granted + |c.waiters| == permits
    && (forall i :: 0 <= i < |c.waiters| ==> c.waiters[i] == Waiter(r, limit + granted + i))
    && forall t: Task :: limit <= t < limit + permits ==>
         && t in s.phase && s.phase[t] == TpmWait(r) && t in c.futures
         && c.futures[t] == if t < limit + granted then Resolved else Pending
  }

  /** A wake-up with room for one grants to one. */
  lemma OneWoken(limit: nat, r: nat, ws: seq<Waiter>, futs: map<nat, FutureState>)
    requires 1 <= r <= limit && |ws| > 0 && forall i :: 0 <= i < |ws| ==> ws[i].need == r
    requires ws[0].fut in futs && futs[ws[0].fut].Pending?
    ensures Woken(limit - r, limit, ws, futs) == (ws[1..], futs[ws[0].fut := Resolved])
  {
    var rest, mid := ws[1..], futs[ws[0].fut := Resolved];
    assert |rest| > 0 ==> rest[0] == ws[1];
    assert Woken(limit, limit, rest, mid) == (rest, mid);
  }

  /** Setting the same limit wakes the first waiter. */
  lemma OneGranted(c: Counter, limit: nat, r: nat, f: nat)
    requires 1 <= r <= limit && |c.waiters| > 0 && c.waiters[0].fut == f && f in c.futures && c.futures[f].Pending?
    requires Young(Expired(c.events, 61.0), limit - r) && forall i :: 0 <= i < |c.waiters| ==> c.waiters[i].need == r
    ensures SetLimit(c, limit, 61.0) ==
            Counter(limit, Expired(c.events, 61.0), c.waiters[1..], c.futures[f := Resolved])
  {
    OneWoken(limit, r, c.waiters, c.futures);
  }

  lemma MinuteLater(s: State, permits: nat, limit: nat, r: nat)
    requires Queueing(s, permits, limit, r, permits) && r <= limit
    ensures Waking(s.(now := 61.0), permits, limit, r, 0)
  {
    var ev := s.tpm.value.events;
    OldDropped(ev, r);
    SlotOvershoot.UnitTotal(ev[r..]);
  }

  lemma OneMoreGranted(s: State, s': State, permits: nat, limit: nat, r: nat, granted: nat)
    requires 1 <= r <= limit && granted < permits && Waking(s, permits, limit, r, granted)
    requires s' == s.(tpm := s'.tpm) && s'.tpm == Some(SetLimit(s.tpm.value, limit, 61.0))
    ensures Waking(s', permits, limit, r, granted + 1)
  {
    hide Expired, SetLimit, Total;
    YoungStay(Expired(s.tpm.value.events, 61.0), limit - r);
    OneGranted(s.tpm.value, limit, r, limit + granted);
  }

  lemma {:induction false} WakeUp(permits: nat, limit: nat, maxTokens: int, x: nat, granted: nat)
    returns (steps: seq<Step>)
    requires permits >= 1 && ProvisionalReserve(maxTokens) <= limit && granted <= permits
    ensures var r := ProvisionalReserve(maxTokens);
      Running(permits, steps, r, x) && Waking(After(Start(permits, 0.0), steps), permits, limit, r, granted)
    decreases granted
  {
    var r, s0 := ProvisionalReserve(maxTokens), Start(permits, 0.0);
    hide Expired, SetLimit, Total, ProvisionalReserve;
    if granted == 0 {
      steps := QueueUp(permits, limit, maxTokens, x, permits);
      MinuteLater(After(s0, steps), permits, limit, r);
      steps := Then(permits, steps, Tick(61.0), r, x);
    } else {
      steps := WakeUp(permits, limit, maxTokens, x, granted - 1);
      var s := After(s0, steps);
      steps := Then(permits, steps, SetTpm(limit), r, x);
      OneMoreGranted(s, After(s0, steps), permits, limit, r, granted - 1);
    }
  }

  // ---- Everybody spends what they were granted, and more ---------------------------------------------------

  /** The tokens in the window after `spent` calls. */
  function Spent(limit: nat, r: nat, x: nat, spent: nat): int {
    limit - r + spent * (r + x)
  }

  lemma SpentGrows(limit: nat, r: nat, x: nat, spent: nat)
    requires r <= limit
    ensures Spent(limit, r, x, 0) == limit - r && Spent(limit, r, x, spent) >= 0
    ensures Spent(limit, r, x, spent + 1) == Spent(limit, r, x, spent) + r + x
  {
    TimesGrows(0, spent, r + x);
    Distributes(spent, 1, r + x);
  }

  lemma SpentInAll(limit: nat, r: nat, x: nat, permits: nat)
    requires permits >= 1
    ensures Spent(limit, r, x, permits) == limit + (permits - 1) * r + permits * x
  {
    Distributes(permits - 1, 1, r);
    assert permits * (r + x) == permits * r + permits * x;
  }

  /** `spent` of the woken tasks have charged and settled at `x` above their reserve. */
  ghost predicate Spending(s: State, permits: nat, limit: nat, r: nat, x: nat, spent: nat) {
    && s.permits == permits && s.tpm.Some? && s.tpm.value.limit == limit && s.now == 61.0
    && var c := s.tpm.value;
    && Young(Expired(c.events, 61.0), Spent(limit, r, x, spent)) && |c.waiters| == 0
    && forall t: Task :: limit + spent <= t < limit + permits ==>
         t in s.phase && s.phase[t] == TpmWait(r) && t in c.futures && c.futures[t].Resolved?
  }

  lemma YoungGrow(ev: seq<Event>, total: int, n: int)
    requires Young(ev, total)
    ensures Young(ev + [Event(61.0, n)], total + n)
    ensures Expired(ev + [Event(61.0, n)], 61.0) == ev + [Event(61.0, n)]
    ensures n > 0 ==> Refunded(ev + [Event(61.0, n)], n) == ev
  {
    SinceLast(ev, Event(61.0, n), 0.0);
    YoungStay(ev + [Event(61.0, n)], total + n);
    assert (ev + [Event(61.0, n)])[..|ev|] == ev;
    assert n > 0 ==> Refunded(ev + [Event(61.0, n)], n) == Refunded(ev, 0);
  }

  function With(c: Counter, n: int): Counter {
    c.(events := Expired(c.events, 61.0) + [Event(61.0, n)])
  }

  lemma SpendOn(c: Counter, total: nat, r: nat, x: nat)
    requires c.limit >= 1 && |c.waiters| == 0 && r >= 1 && Young(Expired(c.events, 61.0), total)
    ensures Charge(c, r, 61.0) == With(c, r) && Total(With(c, r).events) >= r
    ensures SettleOn(With(c, r), r, r + x, 61.0) == With(c, r + x)
    ensures Young(Expired(With(c, r + x).events, 61.0), total + r + x)
  {
    var ev := Expired(c.events, 61.0);
    YoungStay(ev, total);
    YoungGrow(ev, total, r);
    YoungGrow(ev, total, r + x);
  }

  /** A woken task charges its reserve. */
  lemma Resume(permits: nat, steps: seq<Step>, t: Task, r: nat, x: nat) returns (longer: seq<Step>)
    requires Running(permits, steps, r, x)
    requires var s := After(Start(permits, 0.0), steps);
      s.tpm.Some? && t in s.phase && s.phase[t] == TpmWait(r) && FutureOf(s.tpm, t).Resolved?
    ensures Running(permits, longer, r, x)
    ensures var s, s' := After(Start(permits, 0.0), steps), After(Start(permits, 0.0), longer);
      && s' == s.(tpm := s'.tpm, phase := s'.phase) && s'.tpm == Some(Charge(s.tpm.value, r, s.now))
      && s'.phase == s.phase[t := Holding(Token(true, r, s.now, false))]
  {
    hide Charge;
    longer := Then(permits, steps, TpmResume(t), r, x);
  }

  /** It settles at `x` more. */
  lemma SettleAbove(permits: nat, steps: seq<Step>, t: Task, r: nat, x: nat, at: real) returns (longer: seq<Step>)
    requires Running(permits, steps, r, x)
    requires var s := After(Start(permits, 0.0), steps);
      && s.tpm.Some? && t in s.phase && s.phase[t] == Holding(Token(true, r, at, false))
      && Total(s.tpm.value.events) >= r
    ensures Running(permits, longer, r, x)
    ensures var s, s' := After(Start(permits, 0.0), steps), After(Start(permits, 0.0), longer);
      && s' == s.(tpm := s'.tpm, phase := s'.phase, billed := s'.billed)
      && s'.tpm == Some(SettleOn(s.tpm.value, r, r + x, s.now))
      && s'.phase == s.phase[t := Holding(Token(true, r, at, true))]
  {
    hide SettleOn, Total;
    longer := Then(permits, steps, Settle(t, r + x), r, x);
  }

  /** Of the woken tasks `t` charges and settles. */
  lemma Spend(permits: nat, steps: seq<Step>, t: Task, total: nat, r: nat, x: nat) returns (longer: seq<Step>)
    requires Running(permits, steps, r, x) && r >= 1
    requires var s := After(Start(permits, 0.0), steps);
      && s.tpm.Some? && s.tpm.value.limit >= 1 && s.now == 61.0 && |s.tpm.value.waiters| == 0
      && Young(Expired(s.tpm.value.events, 61.0), total)
      && t in s.phase && s.phase[t] == TpmWait(r) && FutureOf(s.tpm, t).Resolved?
    ensures Running(permits, longer, r, x)
    ensures var s, s' := After(Start(permits, 0.0), steps), After(Start(permits, 0.0), longer);
      && s' == s.(tpm := s'.tpm, phase := s'.phase, billed := s'.billed)
      && s'.tpm == Some(With(s.tpm.value, r + x)) && Young(Expired(s'.tpm.value.events, 61.0), total + r + x)
      && s'.phase == s.phase[t := Holding(Token(true, r, 61.0, true))]
  {
    hide Expired, Charge, SettleOn, Young, Total, With, LegalModest;
    SpendOn(After(Start(permits, 0.0), steps).tpm.value, total, r, x);
    longer := Resume(permits, steps, t, r, x);
    longer := SettleAbove(permits, longer, t, r, x, 61.0);
  }

  lemma {:induction false} SpendAll(permits: nat, limit: nat, maxTokens: int, x: nat, spent: nat)
    returns (steps: seq<Step>)
    requires permits >= 1 && ProvisionalReserve(maxTokens) <= limit && spent <= permits
    ensures var r := ProvisionalReserve(maxTokens);
      Running(permits, steps, r, x) && Spending(After(Start(permits, 0.0), steps), permits, limit, r, x, spent)
    decreases spent
  {
    var r := ProvisionalReserve(maxTokens);
    hide Running, Young, Spent, ProvisionalReserve, Expired;
    if spent == 0 {
      steps := WakeUp(permits, limit, maxTokens, x, permits);
      SpentGrows(limit, r, x, 0);
    } else {
      steps := SpendAll(permits, limit, maxTokens, x, spent - 1);
      SpentGrows(limit, r, x, spent - 1);
      steps := Spend(permits, steps, limit + spent - 1, Spent(limit, r, x, spent - 1), r, x);
    }
  }

  /** THE BOUND IS REACHED: for every number of permits, every reserve up to the limit and every excess
      some run whose costs exceed reserves by no more than that puts the whole of
      `limit + (permits - 1) * reserve + permits * excess` tokens inside one window. */
  lemma OvershootIsReached(permits: nat, limit: nat, maxTokens: int, x: nat) returns (steps: seq<Step>)
    requires permits >= 1 && ProvisionalReserve(maxTokens) <= limit
    ensures Running(permits, steps, ProvisionalReserve(maxTokens), x)
    ensures var s := After(Start(permits, 0.0), steps);
      && s.tpm.Some? && s.tpm.value.limit == limit
      && Total(Expired(s.tpm.value.events, s.now)) ==
         limit + (permits - 1) * ProvisionalReserve(maxTokens) + permits * x
  {
    var r := ProvisionalReserve(maxTokens);
    steps := SpendAll(permits, limit, maxTokens, x, permits);
    SpentInAll(limit, r, x, permits);
  }

  /** The window stays within the limit after `steps`. */
  ghost predicate WithinLimit(permits: nat, steps: seq<Step>)
    requires Legal(Start(permits, 0.0), steps)
  {
    var s := After(Start(permits, 0.0), steps);
    s.tpm.Some? ==> Total(Expired(s.tpm.value.events, s.now)) <= s.tpm.value.limit
  }

  /** EXACT CONDITION. The tokens inside the window never pass the TPM limit, on any run that never lowers
      it, if and only if there is a single permit and no call costs more than its refund gives back. */
  lemma WithinLimitIff(permits: nat, maxTokens: int, x: nat)
    requires permits >= 1
    ensures (forall steps: seq<Step> :: LegalModest(Start(permits, 0.0), steps, ProvisionalReserve(maxTokens), x)
               ==> Legal(Start(permits, 0.0), steps) && WithinLimit(permits, steps))
       <==> permits == 1 && x == 0
  {
    var r := ProvisionalReserve(maxTokens);
    forall steps: seq<Step> | LegalModest(Start(permits, 0.0), steps, r, x)
      ensures Legal(Start(permits, 0.0), steps)
      ensures permits == 1 && x == 0 ==> WithinLimit(permits, steps)
    {
      TpmOvershoot(permits, 0.0, steps, r, x);
    }
    if permits > 1 || x > 0 {
      var steps := OvershootIsReached(permits, r, maxTokens, x);
      TimesGrows(1, permits, x);
      TimesGrows(if permits > 1 then 1 else 0, permits - 1, r);
      assert !WithinLimit(permits, steps);
    }
  }
}
