/** The RPM gate over every run. */
module RpmGate {
  import opened Options
  import opened SlidingWindow
  import opened SlotProtocol

  /** Tasks whose future was resolved and which have not charged yet. */
  ghost function Granted(s: State): set<Task> {
    set t | t in s.phase && s.phase[t].RpmWait? && FutureOf(s.rpm, t).Resolved?
  }

  /** The RPM budget starts at one or more and is never lowered. */
  ghost predicate NeverLowers(s: State, step: Step) {
    step.SetRpm? ==> step.limit >= (if s.rpm.Some? then s.rpm.value.limit else 1)
  }

  ghost predicate LegalRising(s: State, steps: seq<Step>)
    decreases |steps|
  {
    |steps| > 0 ==>
      && Enabled(s, steps[0]) && NeverLowers(s, steps[0])
      && LegalRising(Take(s, steps[0]), steps[1..])
  }

  lemma {:induction false} RisingIsLegal(s: State, steps: seq<Step>)
    requires LegalRising(s, steps)
    ensures Legal(s, steps)
    decreases |steps|
  {
    if |steps| > 0 {
      RisingIsLegal(Take(s, steps[0]), steps[1..]);
    }
  }

  ghost predicate DistinctFutures(ws: seq<Waiter>) {
    forall i, j :: 0 <= i < j < |ws| ==> ws[i].fut != ws[j].fut
  }

  /** The queue holds one-unit requests of tasks that still wait and have no grant. */
  ghost predicate QueueOk(ws: seq<Waiter>, futs: map<nat, FutureState>) {
    && DistinctFutures(ws)
    && forall i :: 0 <= i < |ws| ==> ws[i].need == 1 && ws[i].fut in futs && !futs[ws[i].fut].Resolved?
  }

  ghost function NewGrants(futs: map<nat, FutureState>, futs': map<nat, FutureState>): set<nat> {
    set f | f in futs' && futs'[f].Resolved? && !(f in futs && futs[f].Resolved?)
  }

  lemma GrantAdded(futs: map<nat, FutureState>, mid: map<nat, FutureState>, futs': map<nat, FutureState>, f: nat)
    requires f in futs && futs[f].Pending? && mid == futs[f := Resolved] && futs'.Keys == mid.Keys
    requires forall g :: g in mid && mid[g] != futs'[g] ==> mid[g].Pending? && futs'[g].Resolved?
    ensures NewGrants(futs, futs') == NewGrants(mid, futs') + {f}
    ensures f !in NewGrants(mid, futs')
  {
  }

  lemma WokenHead(current: int, limit: int, ws: seq<Waiter>, futs: map<nat, FutureState>, mid: map<nat, FutureState>)
    requires QueueOk(ws, futs) && |ws| > 0 && current + ws[0].need <= limit
    requires mid == if futs[ws[0].fut].Pending? then futs[ws[0].fut := Resolved] else futs
    ensures Woken(current, limit, ws, futs) == Woken(current + 1, limit, ws[1..], mid) && QueueOk(ws[1..], mid)
  {
  }

  /** One pass over the queue grants only what fits, and only to queued futures. */
  lemma {:induction false} WokenGrants(current: int, limit: int, ws: seq<Waiter>, futs: map<nat, FutureState>)
    requires QueueOk(ws, futs)
    ensures var (ws', futs') := Woken(current, limit, ws, futs);
      && QueueOk(ws', futs')
      && futs'.Keys == futs.Keys
      && (forall i :: 0 <= i < |ws'| ==> ws'[i] in ws)
      && (forall f :: f in futs && futs[f] != futs'[f] ==> futs[f].Pending? && futs'[f].Resolved?)
      && (forall f :: f in NewGrants(futs, futs') ==> exists i :: 0 <= i < |ws| && ws[i].fut == f)
      && (NewGrants(futs, futs') != {} ==> current + |NewGrants(futs, futs')| <= limit)
    decreases |ws|
  {
    var (ws', futs') := Woken(current, limit, ws, futs);
    if |ws| == 0 || current + ws[0].need > limit {
      assert NewGrants(futs, futs') == {};
    } else {
      hide Woken, NewGrants;
      var f := ws[0].fut;
      var mid := if futs[f].Pending? then futs[f := Resolved] else futs;
      WokenHead(current, limit, ws, futs, mid);
      WokenGrants(current + 1, limit, ws[1..], mid);
      assert forall i :: 0 <= i < |ws| - 1 ==> ws[1..][i] == ws[i + 1];
      if futs[f].Pending? {
        GrantAdded(futs, mid, futs', f);
      }
    }
  }

  ghost predicate CounterOk(c: Counter) {
    && c.limit >= 1
    && Positive(c.events)
    && QueueOk(c.waiters, c.futures)
  }

  lemma {:induction false} ExpiredShrinks(ev: seq<Event>, now: real)
    requires Positive(ev)
    ensures Positive(Expired(ev, now)) && 0 <= Total(Expired(ev, now)) <= Total(ev)
    decreases |ev|
  {
    SinceBounds(ev, now);
    if |ev| > 0 && ev[0].ts < now - WINDOW_SECONDS {
      assert ev == [ev[0]] + ev[1..];
      SinceConcat([ev[0]], ev[1..], now);
      assert Total([ev[0]]) == Total([]) + ev[0].n;
      ExpiredShrinks(ev[1..], now);
    }
  }

  /** What `_wake` does to a counter: it grants to queued tasks, and if it grants at all
      then the recorded events and the new grants together fit the budget. */
  lemma WakeGrants(c: Counter, now: real)
    requires CounterOk(c)
    ensures var d := Wake(c, now);
      && CounterOk(d) && d.limit == c.limit
      && Total(d.events) <= Total(c.events)
      && d.futures.Keys == c.futures.Keys
      && (forall i :: 0 <= i < |d.waiters| ==> d.waiters[i] in c.waiters)
      && (forall f :: f in c.futures && c.futures[f] != d.futures[f]
                      ==> c.futures[f].Pending? && d.futures[f].Resolved?)
      && (forall f :: f in NewGrants(c.futures, d.futures) ==>
            exists i :: 0 <= i < |c.waiters| && c.waiters[i].fut == f)
      && (NewGrants(c.futures, d.futures) != {} ==> Total(d.events) + |NewGrants(c.futures, d.futures)| <= d.limit)
  {
    ExpiredShrinks(c.events, now);
    if |c.waiters| > 0 {
      WokenGrants(Total(Expired(c.events, now)), c.limit, c.waiters, c.futures);
    } else {
      assert NewGrants(c.futures, c.futures) == {};
    }
  }

  /** The inductive invariant. The last conjunct is the bound itself. */
  ghost predicate Inv(s: State) {
    && |Holders(s)| <= s.permits
    && (forall t :: t in s.phase && s.phase[t].RpmWait? ==> s.rpm.Some? && t in s.rpm.value.futures)
    && (s.rpm.Some? ==>
        var c := s.rpm.value;
        && CounterOk(c)
        && (forall i :: 0 <= i < |c.waiters| ==> c.waiters[i].fut in s.phase && s.phase[c.waiters[i].fut].RpmWait?)
        && (forall f :: f in c.futures ==> f in s.phase && !s.phase[f].Entered?)
        && Bounded(s))
  }

  ghost predicate Bounded(s: State)
    requires s.rpm.Some?
  {
    Total(s.rpm.value.events) + |Granted(s)| <= s.rpm.value.limit + (if s.permits > 0 then s.permits - 1 else 0)
  }

  lemma SubsetSize<T>(a: set<T>, b: set<T>)
    requires a <= b
    ensures |a| <= |b|
  {
    if a != {} {
      var x :| x in a;
      SubsetSize(a - {x}, b - {x});
    }
  }

  lemma GrantedHold(s: State)
    ensures |Granted(s)| <= |Holders(s)|
  {
    SubsetSize(Granted(s), Holders(s));
  }

  /** A pass of `_wake` moves nobody; who was granted before stays granted. */
  lemma WakeSets(s: State, s': State)
    requires Inv(s) && s.rpm.Some?
    requires s' == s.(rpm := Some(Wake(s.rpm.value, s.now)))
    ensures Holders(s') == Holders(s)
    ensures var grants := NewGrants(s.rpm.value.futures, s'.rpm.value.futures);
            Granted(s') == Granted(s) + grants && Granted(s) !! grants && grants <= Holders(s)
  {
    hide Wake, CounterOk, Bounded;
    WakeGrants(s.rpm.value, s.now);
    assert Holders(s') == Holders(s);
    assert Granted(s') == Granted(s) + NewGrants(s.rpm.value.futures, s'.rpm.value.futures);
  }

  lemma WakeBounded(s: State, s': State)
    requires Inv(s) && s.rpm.Some?
    requires s' == s.(rpm := Some(Wake(s.rpm.value, s.now)))
    ensures Bounded(s')
  {
    var grants := NewGrants(s.rpm.value.futures, s'.rpm.value.futures);
    WakeGrants(s.rpm.value, s.now);
    WakeSets(s, s');
    GrantedHold(s);
    if grants != {} {
      assert |Granted(s')| == |Granted(s)| + |grants| && |grants| >= 1;
      SubsetSize(Granted(s'), Holders(s));
    }
  }

  /** A pass of `_wake` keeps the invariant: a new grant needs room under the budget, and
      whoever was granted before holds one of the other permits. */
  lemma WakeKeeps(s: State, s': State)
    requires Inv(s) && s.rpm.Some?
    requires s' == s.(rpm := Some(Wake(s.rpm.value, s.now)))
    ensures Inv(s')
  {
    WakeGrants(s.rpm.value, s.now);
    WakeSets(s, s');
    WakeBounded(s, s');
  }

  /** The state in which the unit is recorded and nobody is woken yet: the bound holds because
      either the unit fitted with no regard to grants, or it replaces a grant. */
  lemma UnitRecorded(s: State, t: Task, mid: State)
    requires Inv(s) && s.rpm.Some? && t in s.phase
    requires (s.phase[t].Entered? && Total(Expired(s.rpm.value.events, s.now)) + 1 <= s.rpm.value.limit)
          || (s.phase[t].RpmWait? && FutureOf(s.rpm, t).Resolved?)
    requires mid == s.(rpm := Some(s.rpm.value.(events := Expired(s.rpm.value.events, s.now) + [Event(s.now, 1)])),
                       phase := s.phase[t := RpmPassed])
    ensures Holders(mid) == Holders(s) && Inv(mid)
  {
    var c := s.rpm.value;
    UnitCounted(c.events, s.now);
    assert Holders(mid) == Holders(s);
    PassedSets(s, t, mid);
    assert Bounded(s) && Bounded(mid);
    assert forall i :: 0 <= i < |c.waiters| ==> c.waiters[i].fut != t;
  }

  lemma UnitCounted(events: seq<Event>, now: real)
    requires Positive(events)
    ensures var ev := Expired(events, now) + [Event(now, 1)];
            Positive(ev) && Total(ev) == Total(Expired(events, now)) + 1 && Total(Expired(events, now)) <= Total(events)
  {
    ExpiredShrinks(events, now);
    var ev := Expired(events, now) + [Event(now, 1)];
    assert ev[..|ev| - 1] == Expired(events, now);
  }

  /** The task that moves on loses its grant, or had none and holds a permit no grant uses. */
  lemma PassedSets(s: State, t: Task, mid: State)
    requires Inv(s) && s.rpm.Some? && mid.rpm.Some? && mid.rpm.value.futures == s.rpm.value.futures
    requires t in s.phase && mid.phase == s.phase[t := RpmPassed]
    requires s.phase[t].Entered? || (s.phase[t].RpmWait? && FutureOf(s.rpm, t).Resolved?)
    ensures s.phase[t].Entered? ==> |Granted(mid)| <= |Holders(s)| - 1
    ensures s.phase[t].RpmWait? ==> |Granted(mid)| <= |Granted(s)| - 1
  {
    if s.phase[t].Entered? {
      assert Granted(mid) == Granted(s);
      assert t in Holders(s);
      SubsetSize(Granted(s), Holders(s) - {t});
    } else {
      assert Granted(mid) == Granted(s) - {t} && t in Granted(s);
    }
  }

  /** Recording one unit for a task that moves on, then waking. */
  lemma ChargeKeeps(s: State, t: Task, base: Counter, s': State)
    requires Inv(s) && s.rpm.Some? && t in s.phase
    requires base == s.rpm.value.(events := Expired(s.rpm.value.events, s.now)) || base == s.rpm.value
    requires (s.phase[t].Entered? && Total(Expired(s.rpm.value.events, s.now)) + 1 <= s.rpm.value.limit)
          || (s.phase[t].RpmWait? && FutureOf(s.rpm, t).Resolved?)
    requires s' == s.(rpm := Some(Charge(base, 1, s.now)), phase := s.phase[t := RpmPassed])
    ensures Inv(s')
  {
    var c := s.rpm.value;
    ExpiredTwice(c.events, s.now);
    var mid := s.(rpm := Some(c.(events := Expired(c.events, s.now) + [Event(s.now, 1)])),
                 phase := s.phase[t := RpmPassed]);
    UnitRecorded(s, t, mid);
    WakeKeeps(mid, s');
  }

  lemma {:induction false} ExpiredTwice(ev: seq<Event>, now: real)
    ensures Expired(Expired(ev, now), now) == Expired(ev, now)
    decreases |ev|
  {
    if |ev| > 0 && ev[0].ts < now - WINDOW_SECONDS {
      ExpiredTwice(ev[1..], now);
    }
  }

  lemma QueueAppend(ws: seq<Waiter>, futs: map<nat, FutureState>, f: nat)
    requires QueueOk(ws, futs) && f !in futs
    ensures QueueOk(ws + [Waiter(1, f)], futs[f := Pending])
  {
  }

  lemma {:induction false} RemoveKeeps(ws: seq<Waiter>, futs: map<nat, FutureState>, w: Waiter)
    requires QueueOk(ws, futs) && w.need == 1
    ensures QueueOk(RemoveFirst(ws, w), futs)
    ensures forall i :: 0 <= i < |RemoveFirst(ws, w)| ==> RemoveFirst(ws, w)[i] in ws && RemoveFirst(ws, w)[i] != w
    decreases |ws|
  {
    if |ws| > 0 {
      if ws[0] == w {
        assert forall i :: 0 < i < |ws| ==> ws[i].fut != w.fut;
      } else {
        RemoveKeeps(ws[1..], futs, w);
      }
    }
  }

  lemma RpmAcquireKeeps(s: State, t: Task)
    requires Inv(s) && Enabled(s, RpmAcquire(t))
    ensures Inv(Take(s, RpmAcquire(t)))
  {
    var s' := Take(s, RpmAcquire(t));
    if s.rpm.None? {
      assert Holders(s') == Holders(s);
    } else {
      var c := s.rpm.value;
      var (d, admitted) := Acquire(c, 1, s.now, t);
      ExpiredShrinks(c.events, s.now);
      if admitted {
        ChargeKeeps(s, t, d, s');
      } else {
        QueueAppend(c.waiters, c.futures, t);
        assert Holders(s') == Holders(s);
        assert Granted(s') == Granted(s);
      }
    }
  }

  /** A task that leaves holds nothing any more, and nobody else gains anything. */
  lemma LeftSets(s: State, s': State, t: Task)
    requires t in s.phase && s'.phase == s.phase[t := Left]
    requires forall u :: FutureOf(s'.rpm, u) == FutureOf(s.rpm, u)
    ensures |Holders(s')| <= |Holders(s)| && |Granted(s')| <= |Granted(s)|
  {
    assert Holders(s') <= Holders(s);
    assert Granted(s') <= Granted(s);
    SubsetSize(Holders(s'), Holders(s));
    SubsetSize(Granted(s'), Granted(s));
  }

  lemma AbortKeeps(s: State, t: Task)
    requires Inv(s) && Enabled(s, Abort(t))
    ensures Inv(Take(s, Abort(t)))
  {
    hide RemoveFirst, Total, Holders, Granted, QueueOk, Positive;
    var s' := Take(s, Abort(t));
    LeftSets(s, s', t);
    if s.phase[t].RpmWait? {
      var c := s.rpm.value;
      RemoveKeeps(c.waiters, c.futures, Waiter(1, t));
    }
  }

  lemma SetRpmKeeps(s: State, limit: nat)
    requires Inv(s) && NeverLowers(s, SetRpm(limit))
    ensures Inv(Take(s, SetRpm(limit)))
  {
    var s' := Take(s, SetRpm(limit));
    if s.rpm.None? {
      assert Holders(s') == Holders(s);
      assert Granted(s') == {};
    } else {
      var mid := s.(rpm := Some(s.rpm.value.(limit := limit)));
      assert Holders(mid) == Holders(s);
      assert Granted(mid) == Granted(s);
      WakeKeeps(mid, s');
    }
  }

  lemma CancelKeeps(s: State, t: Task)
    requires Inv(s) && Enabled(s, Cancel(t))
    ensures Inv(Take(s, Cancel(t)))
  {
    var s' := Take(s, Cancel(t));
    assert Holders(s') == Holders(s);
    assert Granted(s') == Granted(s);
  }

  ghost predicate Unconcerned(before: Phase, after: Phase) {
    !before.RpmWait? && !before.Entered? && before != Left && !after.RpmWait? && !after.Entered?
  }

  ghost predicate AtMostOneCame(s: State, s': State) {
    && (forall t :: t in s.phase ==> t in s'.phase)
    && (forall t :: t in s'.phase && t !in s.phase ==> s'.phase[t].Entered? && |Holders(s)| < s.permits)
    && (forall t, u :: t in s'.phase && t !in s.phase && u in s'.phase && u !in s.phase ==> t == u)
  }

  lemma NewcomerFits(s: State, s': State)
    requires |Holders(s)| <= s.permits && AtMostOneCame(s, s')
    requires forall t :: t in s.phase && s'.phase[t] != Left ==> s.phase[t] != Left
    ensures |Holders(s')| <= s.permits
  {
    var came := set t | t in s'.phase && t !in s.phase;
    assert Holders(s') <= Holders(s) + came;
    SubsetSize(Holders(s'), Holders(s) + came);
    if t :| t in came {
      assert came == {t};
    }
  }

  /** Steps that neither touch the RPM counter nor move a task that waits in it. */
  lemma ElsewhereKeeps(s: State, s': State)
    requires Inv(s)
    requires s'.rpm == s.rpm && s'.permits == s.permits && AtMostOneCame(s, s')
    requires forall t :: t in s.phase && s.phase[t] != s'.phase[t] ==> Unconcerned(s.phase[t], s'.phase[t])
    ensures Inv(s')
  {
    hide CounterOk, Holders;
    NewcomerFits(s, s');
    assert Granted(s') == Granted(s);
  }

  lemma StepKeeps(s: State, step: Step)
    requires Inv(s) && Enabled(s, step) && NeverLowers(s, step)
    ensures Inv(Take(s, step))
    ensures Take(s, step).permits == s.permits
  {
    var s' := Take(s, step);
    match step {
      case SetRpm(limit) => SetRpmKeeps(s, limit);
      case RpmAcquire(t) => RpmAcquireKeeps(s, t);
      case RpmResume(t) => ChargeKeeps(s, t, s.rpm.value, s');
      case Cancel(t) => CancelKeeps(s, t);
      case Abort(t) => AbortKeeps(s, t);
      case _ => ElsewhereKeeps(s, s');
    }
  }

  lemma {:induction false} RunKeeps(s: State, steps: seq<Step>)
    requires Inv(s) && LegalRising(s, steps)
    ensures Legal(s, steps) && Inv(After(s, steps)) && After(s, steps).permits == s.permits
    decreases |steps|
  {
    if |steps| > 0 {
      StepKeeps(s, steps[0]);
      RunKeeps(Take(s, steps[0]), steps[1..]);
    }
  }

  /** BOUNDED OVERSHOOT. After any run on `permits` permits in which the RPM budget is never
      lowered, the units inside the window plus the grants still to be charged exceed the
      budget by at most `permits - 1`, whatever tasks are cancelled on the way. */
  lemma BoundedOvershoot(permits: nat, start: real, steps: seq<Step>)
    requires permits >= 1 && LegalRising(Start(permits, start), steps)
    ensures Legal(Start(permits, start), steps)
    ensures var s := After(Start(permits, start), steps);
      s.rpm.Some? ==>
        && Total(s.rpm.value.events) + |Granted(s)| <= s.rpm.value.limit + permits - 1
        && Total(Expired(s.rpm.value.events, s.now)) + |Granted(s)| <= s.rpm.value.limit + permits - 1
  {
    var s0 := Start(permits, start);
    assert Holders(s0) == {};
    RunKeeps(s0, steps);
    var s := After(s0, steps);
    if s.rpm.Some? {
      ExpiredShrinks(s.rpm.value.events, s.now);
    }
  }
}
