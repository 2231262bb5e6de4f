/** A schedule that reaches `RpmGate.BoundedOvershoot`, for every budget and number of permits. */
module SlotOvershoot {
  import opened Options
  import opened SlidingWindow
  import opened SlotProtocol
  import opened RpmGate

  lemma {:induction false} Append(s: State, a: seq<Step>, b: seq<Step>)
    requires LegalRising(s, a) && Legal(s, a) && LegalRising(After(s, a), b) && Legal(After(s, a), b)
    ensures LegalRising(s, a + b) && Legal(s, a + b)
    ensures After(s, a + b) == After(After(s, a), b)
    decreases |a|
  {
    if |a| == 0 {
      assert a + b == b;
    } else {
      assert (a + b)[1..] == a[1..] + b;
      Append(Take(s, a[0]), a[1..], b);
    }
  }

  lemma One(s: State, step: Step)
    requires Enabled(s, step) && NeverLowers(s, step)
    ensures LegalRising(s, [step]) && Legal(s, [step]) && After(s, [step]) == Take(s, step)
  {
    assert [step][1..] == [];
  }

  /** Extends a legal run by one step. */
  lemma Then(s0: State, steps: seq<Step>, step: Step) returns (longer: seq<Step>)
    requires LegalRising(s0, steps) && Legal(s0, steps)
    requires Enabled(After(s0, steps), step) && NeverLowers(After(s0, steps), step)
    ensures LegalRising(s0, longer) && Legal(s0, longer)
    ensures After(s0, longer) == Take(After(s0, steps), step)
  {
    One(After(s0, steps), step);
    Append(s0, steps, [step]);
    longer := steps + [step];
  }

  ghost predicate UnitEvents(ev: seq<Event>) {
    forall i :: 0 <= i < |ev| ==> ev[i].n == 1
  }

  lemma {:induction false} UnitTotal(ev: seq<Event>)
    requires UnitEvents(ev)
    ensures Total(ev) == |ev|
  {
    if |ev| > 0 {
      UnitTotal(ev[..|ev| - 1]);
    }
  }

  /** `served` one-unit requests went through; the first at time 0, the others at time 1. */
  ghost predicate Filling(s: State, permits: nat, limit: nat, served: nat) {
    && s.permits == permits && s.tpm.None? && s.rpm.Some?
    && s.rpm.value == Counter(limit, s.rpm.value.events, [], map[])
    && UnitEvents(s.rpm.value.events) && |s.rpm.value.events| == served
    && (forall i :: 0 <= i < served ==> s.rpm.value.events[i].ts == if i == 0 then 0.0 else 1.0)
    && s.now == (if served == 0 then 0.0 else 1.0)
    && (forall t: Task :: t in s.phase <==> t < served)
    && (forall t: Task :: t in s.phase ==> s.phase[t] == Left)
  }

  /** One request passes the RPM gate on the fast path and leaves. */
  lemma Serve(s0: State, steps: seq<Step>, t: Task) returns (longer: seq<Step>)
    requires LegalRising(s0, steps) && Legal(s0, steps)
    requires var s := After(s0, steps);
      && t !in s.phase && |Holders(s)| < s.permits && s.tpm.None? && s.rpm.Some? && s.rpm.value.limit >= 1
      && |s.rpm.value.waiters| == 0 && Expired(s.rpm.value.events, s.now) == s.rpm.value.events
      && Total(s.rpm.value.events) + 1 <= s.rpm.value.limit
    ensures LegalRising(s0, longer) && Legal(s0, longer)
    ensures var s := After(s0, steps);
      After(s0, longer) == s.(
        rpm := Some(s.rpm.value.(events := s.rpm.value.events + [Event(s.now, 1)])),
        order := s.order + [t],
        phase := s.phase[t := Left])
  {
    var s := After(s0, steps);
    longer := Then(s0, steps, Enter(t));
    longer := Then(s0, longer, RpmAcquire(t));
    assert After(s0, longer).rpm.value == s.rpm.value.(events := s.rpm.value.events + [Event(s.now, 1)]);
    longer := Then(s0, longer, TpmAcquire(t, 0));
    longer := Then(s0, longer, Leave(t));
    assert After(s0, longer).phase == s.phase[t := Left];
  }

  lemma {:induction false} Fill(permits: nat, limit: nat, served: nat) returns (steps: seq<Step>)
    requires permits >= 1 && limit >= 1 && served <= limit
    ensures LegalRising(Start(permits, 0.0), steps) && Legal(Start(permits, 0.0), steps)
    ensures Filling(After(Start(permits, 0.0), steps), permits, limit, served)
  {
    var s0 := Start(permits, 0.0);
    if served == 0 {
      steps := Then(s0, [], SetRpm(limit));
      assert After(s0, steps).phase == map[];
    } else {
      var t := served - 1;
      steps := Fill(permits, limit, t);
      var s := After(s0, steps);
      UnitTotal(s.rpm.value.events);
      assert Holders(s) == {};
      steps := Serve(s0, steps, t);
      assert forall u: nat :: u in After(s0, steps).phase <==> u < served;
      if served == 1 {
        ghost var before := After(s0, steps).phase;
        steps := Then(s0, steps, Tick(1.0));
        assert After(s0, steps).phase == before;
      }
    }
  }

  /** `queued` tasks wait behind a full window; the tasks `limit ..` hold permits. */
  ghost predicate Queueing(s: State, permits: nat, limit: nat, queued: nat) {
    && s.permits == permits && s.tpm.None? && s.rpm.Some? && s.rpm.value.limit == limit && s.now == 1.0
    && var c := s.rpm.value;
    && UnitEvents(c.events) && |c.events| == limit
    && (forall i :: 0 <= i < limit ==> c.events[i].ts == if i == 0 then 0.0 else 1.0)
    && |c.waiters| == queued
    && (forall i :: 0 <= i < queued ==> c.waiters[i] == Waiter(1, limit + i))
    && (forall t: Task :: t in s.phase <==> t < limit + queued)
    && (forall t: Task :: t in s.phase ==> s.phase[t] == if t < limit then Left else RpmWait)
    && (forall t: Task :: limit <= t < limit + queued ==> t in c.futures && c.futures[t].Pending?)
  }

  lemma {:induction false} RangeSize(lo: nat, n: nat, s: set<nat>)
    requires forall t :: t in s <==> lo <= t < lo + n
    ensures |s| == n
  {
    if n == 0 {
      assert s == {};
    } else {
      RangeSize(lo, n - 1, s - {lo + n - 1});
    }
  }

  lemma {:induction false} QueueUp(permits: nat, limit: nat, queued: nat) returns (steps: seq<Step>)
    requires permits >= 1 && limit >= 1 && queued <= permits
    ensures LegalRising(Start(permits, 0.0), steps) && Legal(Start(permits, 0.0), steps)
    ensures Queueing(After(Start(permits, 0.0), steps), permits, limit, queued)
    decreases queued
  {
    var s0 := Start(permits, 0.0);
    if queued == 0 {
      steps := Fill(permits, limit, limit);
    } else {
      steps := QueueUp(permits, limit, queued - 1);
      var s := After(s0, steps);
      var t := limit + queued - 1;
      RangeSize(limit, queued - 1, Holders(s));
      UnitTotal(s.rpm.value.events);
      assert Expired(s.rpm.value.events, s.now) == s.rpm.value.events;
      steps := Then(s0, steps, Enter(t));
      steps := Then(s0, steps, RpmAcquire(t));
    }
  }

  /** The oldest request has left the window; `granted` waiters were woken, none has charged. */
  ghost predicate Waking(s: State, permits: nat, limit: nat, granted: nat) {
    && s.permits == permits && s.rpm.Some? && s.rpm.value.limit == limit && s.now == 61.0
    && var c := s.rpm.value;
    && UnitEvents(Expired(c.events, 61.0)) && |Expired(c.events, 61.0)| == limit - 1
    && granted + |c.waiters| == permits
    && (forall i :: 0 <= i < |c.waiters| ==> c.waiters[i] == Waiter(1, limit + granted + i))
    && (forall t: Task :: limit <= t < limit + permits ==>
          && t in s.phase && s.phase[t].RpmWait? && t in c.futures
          && c.futures[t] == if t < limit + granted then Resolved else Pending)
  }

  lemma {:induction false} WakeUp(permits: nat, limit: nat, granted: nat) returns (steps: seq<Step>)
    requires permits >= 1 && limit >= 1 && granted <= permits
    ensures LegalRising(Start(permits, 0.0), steps) && Legal(Start(permits, 0.0), steps)
    ensures Waking(After(Start(permits, 0.0), steps), permits, limit, granted)
    decreases granted
  {
    var s0 := Start(permits, 0.0);
    if granted == 0 {
      steps := QueueUp(permits, limit, permits);
      var ev := After(s0, steps).rpm.value.events;
      assert Expired(ev[1..], 61.0) == ev[1..];
      assert Expired(ev, 61.0) == ev[1..];
      steps := Then(s0, steps, Tick(61.0));
    } else {
      steps := WakeUp(permits, limit, granted - 1);
      var s := After(s0, steps);
      var c := s.rpm.value;
      var ev := Expired(c.events, 61.0);
      UnitTotal(ev);
      ExpiredTwice(c.events, 61.0);
      var f := limit + granted - 1;
      assert c.waiters[0] == Waiter(1, f);
      assert Woken(limit - 1, limit, c.waiters, c.futures)
          == Woken(limit, limit, c.waiters[1..], c.futures[f := Resolved]);
      assert Woken(limit, limit, c.waiters[1..], c.futures[f := Resolved])
          == (c.waiters[1..], c.futures[f := Resolved]);
      steps := Then(s0, steps, SetRpm(limit));
    }
  }

  /** `charged` of the woken tasks have recorded their unit. */
  ghost predicate Charging(s: State, permits: nat, limit: nat, charged: nat) {
    && s.permits == permits && s.rpm.Some? && s.rpm.value.limit == limit && s.now == 61.0
    && var c := s.rpm.value;
    && UnitEvents(Expired(c.events, 61.0)) && |Expired(c.events, 61.0)| == limit - 1 + charged
    && |c.waiters| == 0
    && (forall t: Task :: limit + charged <= t < limit + permits ==>
          t in s.phase && s.phase[t].RpmWait? && t in c.futures && c.futures[t].Resolved?)
  }

  lemma {:induction false} ExpiredAppend(ev: seq<Event>, now: real)
    ensures Expired(Expired(ev, now) + [Event(now, 1)], now) == Expired(ev, now) + [Event(now, 1)]
    decreases |ev|
  {
    if |ev| > 0 && ev[0].ts < now - WINDOW_SECONDS {
      ExpiredAppend(ev[1..], now);
    } else if |ev| > 0 {
      assert (ev + [Event(now, 1)])[0] == ev[0];
    } else {
      assert ev + [Event(now, 1)] == [Event(now, 1)];
    }
  }

  lemma {:induction false} ChargeAll(permits: nat, limit: nat, charged: nat) returns (steps: seq<Step>)
    requires permits >= 1 && limit >= 1 && charged <= permits
    ensures LegalRising(Start(permits, 0.0), steps) && Legal(Start(permits, 0.0), steps)
    ensures Charging(After(Start(permits, 0.0), steps), permits, limit, charged)
    decreases charged
  {
    var s0 := Start(permits, 0.0);
    if charged == 0 {
      steps := WakeUp(permits, limit, permits);
    } else {
      steps := ChargeAll(permits, limit, charged - 1);
      ExpiredAppend(After(s0, steps).rpm.value.events, 61.0);
      steps := Then(s0, steps, RpmResume(limit + charged - 1));
    }
  }

  /** The bound is reached: for every budget and every number of permits some run, one that
      never lowers the budget, records `limit + permits - 1` requests inside one window. */
  lemma OvershootIsReached(permits: nat, limit: nat) returns (steps: seq<Step>)
    requires permits >= 1 && limit >= 1
    ensures LegalRising(Start(permits, 0.0), steps) && Legal(Start(permits, 0.0), steps)
    ensures var s := After(Start(permits, 0.0), steps);
      && s.rpm.Some? && s.rpm.value.limit == limit
      && Total(Expired(s.rpm.value.events, s.now)) == limit + permits - 1
  {
    steps := ChargeAll(permits, limit, permits);
    UnitTotal(Expired(After(Start(permits, 0.0), steps).rpm.value.events, 61.0));
  }

  /** The window stays within the budget after `steps`. */
  ghost predicate WithinBudget(permits: nat, steps: seq<Step>)
    requires Legal(Start(permits, 0.0), steps)
  {
    var s := After(Start(permits, 0.0), steps);
    s.rpm.Some? ==> Total(Expired(s.rpm.value.events, s.now)) <= s.rpm.value.limit
  }

  /** EXACT CONDITION. The requests inside the window never pass the RPM budget, on any run
      that never lowers it, if and only if the endpoint has a single permit. */
  lemma WithinBudgetIffOnePermit(permits: nat)
    requires permits >= 1
    ensures (forall steps: seq<Step> :: LegalRising(Start(permits, 0.0), steps)
               ==> Legal(Start(permits, 0.0), steps) && WithinBudget(permits, steps))
       <==> permits == 1
  {
    forall steps: seq<Step> | LegalRising(Start(permits, 0.0), steps)
      ensures Legal(Start(permits, 0.0), steps)
      ensures permits == 1 ==> WithinBudget(permits, steps)
    {
      BoundedOvershoot(permits, 0.0, steps);
    }
    if permits > 1 {
      var steps := OvershootIsReached(permits, 1);
      assert !WithinBudget(permits, steps);
    }
  }
}
