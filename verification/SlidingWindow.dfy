/** The sixty-second sliding counter behind the RPM and TPM gates. */
module SlidingWindow {

  const WINDOW_SECONDS: real := 60.0

  datatype Event = Event(ts: real, n: int)

  /** The states of an `asyncio.Future`; futures are named by numbers. */
  datatype FutureState = Pending | Resolved | Cancelled

  datatype Waiter = Waiter(need: int, fut: nat)

  /** The value of a counter object: its budget, the recorded events (oldest first), the FIFO queue
      of waiters and the state of their futures. The functions on it say what each operation of the
      class computes; `SlidingCounter` at the end of the file is the object updated in place. */
  datatype Counter = Counter(
    limit: nat,
    events: seq<Event>,
    waiters: seq<Waiter>,
    futures: map<nat, FutureState>)

  // ---- Measures on event lists -------------------------------------------

  /** Units recorded at or after `cutoff`. */
  function Since(ev: seq<Event>, cutoff: real): int {
    if |ev| == 0 then 0
    else Since(ev[..|ev| - 1], cutoff) + (if ev[|ev| - 1].ts >= cutoff then ev[|ev| - 1].n else 0)
  }

  function Total(ev: seq<Event>): int {
    if |ev| == 0 then 0 else Total(ev[..|ev| - 1]) + ev[|ev| - 1].n
  }

  ghost predicate Sorted(ev: seq<Event>) {
    forall i, j :: 0 <= i < j < |ev| ==> ev[i].ts <= ev[j].ts
  }

  ghost predicate Positive(ev: seq<Event>) {
    forall i :: 0 <= i < |ev| ==> ev[i].n > 0
  }

  ghost predicate NoLaterThan(ev: seq<Event>, now: real) {
    forall i :: 0 <= i < |ev| ==> ev[i].ts <= now
  }

  lemma {:induction false} SinceConcat(a: seq<Event>, b: seq<Event>, cutoff: real)
    ensures Since(a + b, cutoff) == Since(a, cutoff) + Since(b, cutoff)
    ensures Total(a + b) == Total(a) + Total(b)
  {
    if |b| == 0 {
      assert a + b == a;
    } else {
      assert (a + b)[..|a + b| - 1] == a + b[..|b| - 1];
      SinceConcat(a, b[..|b| - 1], cutoff);
    }
  }

  lemma SinceLast(ev: seq<Event>, e: Event, cutoff: real)
    ensures Since(ev + [e], cutoff) == Since(ev, cutoff) + (if e.ts >= cutoff then e.n else 0)
    ensures Total(ev + [e]) == Total(ev) + e.n
  {
    assert (ev + [e])[..|ev|] == ev;
  }

  lemma {:induction false} SinceBounds(ev: seq<Event>, cutoff: real)
    requires Positive(ev)
    ensures 0 <= Since(ev, cutoff) <= Total(ev)
  {
    if |ev| > 0 {
      SinceBounds(ev[..|ev| - 1], cutoff);
    }
  }

  lemma {:induction false} SinceAll(ev: seq<Event>, cutoff: real)
    requires forall i :: 0 <= i < |ev| ==> ev[i].ts >= cutoff
    ensures Since(ev, cutoff) == Total(ev)
  {
    if |ev| > 0 {
      SinceAll(ev[..|ev| - 1], cutoff);
    }
  }

  lemma {:induction false} SinceNone(ev: seq<Event>, cutoff: real)
    requires forall i :: 0 <= i < |ev| ==> ev[i].ts < cutoff
    ensures Since(ev, cutoff) == 0
  {
    if |ev| > 0 {
      SinceNone(ev[..|ev| - 1], cutoff);
    }
  }

  // ---- Expiry -------------------------------------------------------------

  /** Drops events from the old end while they lie before the window. */
  function Expired(ev: seq<Event>, now: real): seq<Event> {
    if |ev| > 0 && ev[0].ts < now - WINDOW_SECONDS then Expired(ev[1..], now) else ev
  }

  lemma SinceFirst(ev: seq<Event>, cutoff: real)
    requires |ev| > 0
    ensures Since(ev, cutoff) == (if ev[0].ts >= cutoff then ev[0].n else 0) + Since(ev[1..], cutoff)
  {
    var one, rest := [ev[0]], ev[1..];
    assert ev == one + rest && one[..0] == [];
    assert Since(one, cutoff) == Since([], cutoff) + (if ev[0].ts >= cutoff then ev[0].n else 0);
    SinceConcat(one, rest, cutoff);
  }

  /** What stays is exactly the sixty-second window: every recorded unit that is
      young enough, and nothing else. */
  lemma {:induction false} ExpiredIsWindow(ev: seq<Event>, now: real, cutoff: real)
    requires Sorted(ev) && Positive(ev)
    ensures Sorted(Expired(ev, now)) && Positive(Expired(ev, now))
    ensures Total(Expired(ev, now)) == Since(ev, now - WINDOW_SECONDS)
    ensures Since(Expired(ev, now), cutoff) <= Since(ev, cutoff)
    ensures cutoff >= now - WINDOW_SECONDS ==> Since(Expired(ev, now), cutoff) == Since(ev, cutoff)
    ensures forall t :: NoLaterThan(ev, t) ==> NoLaterThan(Expired(ev, now), t)
  {
    hide Total, Since;
    if |ev| > 0 && ev[0].ts < now - WINDOW_SECONDS {
      SinceFirst(ev, cutoff);
      SinceFirst(ev, now - WINDOW_SECONDS);
      ExpiredIsWindow(ev[1..], now, cutoff);
    } else {
      SinceAll(ev, now - WINDOW_SECONDS);
    }
  }

  // ---- Refund -------------------------------------------------------------

  /** Takes `amount` units away, newest event first. */
  function Refunded(ev: seq<Event>, amount: int): seq<Event>
    decreases |ev|
  {
    if amount <= 0 || |ev| == 0 then ev
    else
      var last := ev[|ev| - 1];
      var take := if last.n < amount then last.n else amount;
      if last.n - take == 0 then Refunded(ev[..|ev| - 1], amount - take)
      else ev[..|ev| - 1] + [Event(last.ts, last.n - take)]
  }

  function Clip(x: int): int {
    if x < 0 then 0 else x
  }

  lemma {:induction false} RefundKeepsShape(ev: seq<Event>, amount: nat)
    requires Sorted(ev) && Positive(ev)
    ensures Sorted(Refunded(ev, amount)) && Positive(Refunded(ev, amount))
    ensures |Refunded(ev, amount)| <= |ev|
    ensures forall i :: 0 <= i < |Refunded(ev, amount)| ==> Refunded(ev, amount)[i].ts == ev[i].ts
    decreases |ev|
  {
    if amount > 0 && |ev| > 0 && ev[|ev| - 1].n <= amount {
      RefundKeepsShape(ev[..|ev| - 1], amount - ev[|ev| - 1].n);
    }
  }

  lemma RefundStep(init: seq<Event>, last: Event, amount: nat)
    requires amount > 0 && last.n > 0
    ensures Refunded(init + [last], amount) ==
            if last.n <= amount then Refunded(init, amount - last.n) else init + [Event(last.ts, last.n - amount)]
  {
    assert (init + [last])[..|init|] == init;
  }

  lemma OldAreOut(init: seq<Event>, last: Event, cutoff: real)
    requires Sorted(init + [last]) && last.ts < cutoff
    ensures Since(init + [last], cutoff) == Since(init, cutoff) == 0
  {
    hide Since;
    var ev := init + [last];
    forall i | 0 <= i < |ev|
      ensures ev[i].ts < cutoff
    {
      assert ev[i].ts <= ev[|init|].ts;
    }
    assert forall i :: 0 <= i < |init| ==> init[i] == ev[i];
    SinceNone(ev, cutoff);
    SinceNone(init, cutoff);
  }

  lemma SortedInit(init: seq<Event>, last: Event)
    requires Sorted(init + [last]) && Positive(init + [last])
    ensures Sorted(init) && Positive(init) && last.n > 0
  {
    var ev := init + [last];
    assert ev[|init|] == last && forall i :: 0 <= i < |init| ==> init[i] == ev[i];
  }

  /** A refund lowers the tally above every cutoff by the whole amount, down to zero. */
  lemma {:induction false} RefundTakesNewest(ev: seq<Event>, amount: nat, cutoff: real)
    requires Sorted(ev) && Positive(ev)
    ensures Since(Refunded(ev, amount), cutoff) == Clip(Since(ev, cutoff) - amount)
    ensures Total(Refunded(ev, amount)) == Clip(Total(ev) - amount)
    decreases |ev|
  {
    hide Since, Total, Sorted, Positive;
    SinceBounds(ev, cutoff);
    if |ev| == 0 {
      SinceNone(ev, cutoff);
      SinceAll(ev, cutoff);
    } else if amount > 0 {
      hide Refunded;
      var init, last := ev[..|ev| - 1], ev[|ev| - 1];
      assert ev == init + [last];
      SortedInit(init, last);
      RefundStep(init, last, amount);
      SinceLast(init, last, cutoff);
      SinceBounds(init, cutoff);
      if last.ts < cutoff {
        OldAreOut(init, last, cutoff);
      }
      if last.n <= amount {
        RefundTakesNewest(init, amount - last.n, cutoff);
      } else {
        SinceLast(init, Event(last.ts, last.n - amount), cutoff);
      }
    }
  }

  // ---- Waking -------------------------------------------------------------

  /** Pops waiters from the front while their need fits on top of `current`; a popped
      waiter whose future is already done is skipped over but still counted. */
  function Woken(current: int, limit: int, ws: seq<Waiter>, futs: map<nat, FutureState>)
    : (seq<Waiter>, map<nat, FutureState>)
    decreases |ws|
  {
    if |ws| == 0 || current + ws[0].need > limit then (ws, futs)
    else
      var f := ws[0].fut;
      var futs' := if f in futs && futs[f].Pending? then futs[f := Resolved] else futs;
      Woken(current + ws[0].need, limit, ws[1..], futs')
  }

  function Wake(c: Counter, now: real): Counter {
    if |c.waiters| == 0 then c
    else
      var ev := Expired(c.events, now);
      var (ws, futs) := Woken(Total(ev), c.limit, c.waiters, c.futures);
      c.(events := ev, waiters := ws, futures := futs)
  }

  function Needs(ws: seq<Waiter>): int {
    if |ws| == 0 then 0 else Needs(ws[..|ws| - 1]) + ws[|ws| - 1].need
  }

  lemma {:induction false} NeedsFrom(ws: seq<Waiter>, n: nat)
    requires n < |ws|
    ensures Needs(ws[..n + 1]) == ws[0].need + Needs(ws[1..][..n])
  {
    assert ws[..n + 1][..n] == ws[..n];
    if n == 0 {
      assert ws[..1] == [ws[0]] && [ws[0]][..0] == [] && Needs([]) == 0;
    } else {
      assert ws[1..][..n][..n - 1] == ws[1..][..n - 1];
      NeedsFrom(ws, n - 1);
    }
  }

  ghost predicate Queued(ws: seq<Waiter>, n: nat, f: nat)
    requires n <= |ws|
  {
    exists i :: 0 <= i < n && ws[i].fut == f
  }

  /** The first `n` waiters are served: each fitted on top of what is used and of those before it, the
      next one does not, and of the futures exactly theirs are resolved, if they were pending. */
  ghost predicate Served(used: int, limit: int, ws: seq<Waiter>, n: nat, futs: map<nat, FutureState>,
                         futs': map<nat, FutureState>)
  {
    && n <= |ws|
    && (forall j :: 0 < j <= n ==> used + Needs(ws[..j]) <= limit)
    && (n < |ws| ==> used + Needs(ws[..n + 1]) > limit)
    && futs'.Keys == futs.Keys
    && forall f :: f in futs ==> futs'[f] == if futs[f].Pending? && Queued(ws, n, f) then Resolved else futs[f]
  }

  lemma QueuedShifts(ws: seq<Waiter>, k: nat, g: nat)
    requires k < |ws|
    ensures Queued(ws, k + 1, g) <==> g == ws[0].fut || Queued(ws[1..], k, g)
  {
    if Queued(ws[1..], k, g) {
      var i :| 0 <= i < k && ws[1..][i].fut == g;
      assert ws[i + 1].fut == g;
    }
    if g != ws[0].fut && Queued(ws, k + 1, g) {
      var i :| 0 <= i < k + 1 && ws[i].fut == g;
      assert ws[1..][i - 1].fut == g;
    }
  }

  lemma ServedOneMore(used: int, limit: int, ws: seq<Waiter>, k: nat, futs: map<nat, FutureState>,
                      mid: map<nat, FutureState>, futs': map<nat, FutureState>)
    requires |ws| > 0 && used + ws[0].need <= limit
    requires mid == if ws[0].fut in futs && futs[ws[0].fut].Pending? then futs[ws[0].fut := Resolved] else futs
    requires Served(used + ws[0].need, limit, ws[1..], k, mid, futs')
    ensures Served(used, limit, ws, k + 1, futs, futs')
  {
    hide Needs, Queued;
    forall j | 0 < j <= k + 1
      ensures used + Needs(ws[..j]) <= limit
    {
      NeedsFrom(ws, j - 1);
      if j == 1 {
        NeedsNone(ws[1..]);
      }
    }
    if k + 1 < |ws| {
      NeedsFrom(ws, k + 1);
    }
    forall f | f in futs
      ensures futs'[f] == if futs[f].Pending? && Queued(ws, k + 1, f) then Resolved else futs[f]
    {
      QueuedShifts(ws, k, f);
    }
  }

  lemma NeedsNone(ws: seq<Waiter>)
    ensures Needs(ws[..0]) == 0
  {
  }

  /** A wake-up pass serves the queue from the front, as far as it fits. */
  lemma {:induction false} WokenIsPrefix(current: int, limit: int, ws: seq<Waiter>, futs: map<nat, FutureState>)
    returns (n: nat)
    ensures n <= |ws| && Woken(current, limit, ws, futs).0 == ws[n..]
    ensures Served(current, limit, ws, n, futs, Woken(current, limit, ws, futs).1)
    decreases |ws|
  {
    if |ws| == 0 || current + ws[0].need > limit {
      n := 0;
      if |ws| > 0 {
        NeedsFrom(ws, 0);
        NeedsNone(ws[1..]);
      }
    } else {
      hide Needs;
      var f := ws[0].fut;
      var mid := if f in futs && futs[f].Pending? then futs[f := Resolved] else futs;
      var k := WokenIsPrefix(current + ws[0].need, limit, ws[1..], mid);
      ServedOneMore(current, limit, ws, k, futs, mid, Woken(current, limit, ws, futs).1);
      n := k + 1;
    }
  }

  /** What a wake-up makes of the queue, in terms of the units inside the window. */
  ghost predicate WokenUp(c: Counter, d: Counter, now: real) {
    && |d.waiters| <= |c.waiters| && d.limit == c.limit
    && var n := |c.waiters| - |d.waiters|;
       d.waiters == c.waiters[n..] &&
       Served(Since(c.events, now - WINDOW_SECONDS), c.limit, c.waiters, n, c.futures, d.futures)
  }

  /** A WAKE-UP STAYS WITHIN THE LIMIT and stops at the first waiter that does not fit: whoever is served
      fits, with all served before, on top of the window. */
  lemma WakeServes(c: Counter, now: real)
    requires Sorted(c.events) && Positive(c.events)
    ensures WokenUp(c, Wake(c, now), now)
  {
    ExpiredIsWindow(c.events, now, now);
    if |c.waiters| > 0 {
      var n := WokenIsPrefix(Total(Expired(c.events, now)), c.limit, c.waiters, c.futures);
    }
  }

  // ---- The operations -----------------------------------------------------

  /** `acquire` up to its suspension point: true when the fast path admits. */
  function Acquire(c: Counter, amount: int, now: real, fut: nat): (Counter, bool) {
    if c.limit == 0 || amount <= 0 then (c, true)
    else
      var ev := Expired(c.events, now);
      if Total(ev) + amount <= c.limit && |c.waiters| == 0 then (c.(events := ev), true)
      else (c.(events := ev,
               waiters := c.waiters + [Waiter(amount, fut)],
               futures := c.futures[fut := Pending]), false)
  }

  /** A request for something, under a limit, is admitted at once if nobody queues and it fits. */
  ghost predicate Admits(c: Counter, amount: int, now: real) {
    c.limit == 0 || amount <= 0 ||
    (|c.waiters| == 0 && Since(c.events, now - WINDOW_SECONDS) + amount <= c.limit)
  }

  /** ADMITTED IFF IT FITS; else it is queued behind everybody, and pending. */
  lemma AcquireAdmitsIff(c: Counter, amount: int, now: real, fut: nat)
    requires Sorted(c.events) && Positive(c.events)
    ensures var (d, admitted) := Acquire(c, amount, now, fut);
      && (admitted <==> Admits(c, amount, now))
      && d.limit == c.limit
      && d.waiters == (if admitted then c.waiters else c.waiters + [Waiter(amount, fut)])
      && d.futures == (if admitted then c.futures else c.futures[fut := Pending])
  {
    ExpiredIsWindow(c.events, now, now);
  }

  /** The exception path of `acquire`: the waiter leaves the queue if it is still there. */
  function Forget(c: Counter, amount: int, fut: nat): Counter {
    c.(waiters := RemoveFirst(c.waiters, Waiter(amount, fut)))
  }

  function RemoveFirst(ws: seq<Waiter>, w: Waiter): seq<Waiter> {
    if |ws| == 0 then ws
    else if ws[0] == w then ws[1..]
    else [ws[0]] + RemoveFirst(ws[1..], w)
  }

  function Charge(c: Counter, amount: int, now: real): Counter {
    if c.limit == 0 || amount <= 0 then c
    else Wake(c.(events := Expired(c.events, now) + [Event(now, amount)]), now)
  }

  function Refund(c: Counter, amount: int, now: real): Counter {
    if c.limit == 0 || amount <= 0 then c
    else Wake(c.(events := Refunded(c.events, amount)), now)
  }

  function SetLimit(c: Counter, limit: nat, now: real): Counter {
    Wake(c.(limit := limit), now)
  }

  /** `SlotToken.settle` on an unsettled token: refund the reserve, charge the cost. */
  function SettleOn(c: Counter, reserved: int, tokens: int, now: real): Counter {
    var c1 := if reserved != 0 then Refund(c, reserved, now) else c;
    if tokens > 0 then Charge(c1, tokens, now) else c1
  }

  lemma WakeTally(c: Counter, now: real, cutoff: real)
    requires Sorted(c.events) && Positive(c.events) && cutoff >= now - WINDOW_SECONDS
    ensures Since(Wake(c, now).events, cutoff) == Since(c.events, cutoff)
  {
    ExpiredIsWindow(c.events, now, cutoff);
  }

  /** A charge adds its units at the present time to every tally inside the window. */
  lemma ChargeRecords(c: Counter, amount: int, now: real, cutoff: real)
    requires Sorted(c.events) && Positive(c.events) && NoLaterThan(c.events, now)
    requires c.limit > 0 && amount > 0 && cutoff >= now - WINDOW_SECONDS
    ensures Since(Charge(c, amount, now).events, cutoff) ==
            Since(c.events, cutoff) + if now >= cutoff then amount else 0
  {
    hide Since, Expired, Wake;
    ExpiredIsWindow(c.events, now, cutoff);
    var kept := Expired(c.events, now);
    SinceLast(kept, Event(now, amount), cutoff);
    WakeTally(c.(events := kept + [Event(now, amount)]), now, cutoff);
  }

  // ---- The counter object -------------------------------------------------

  class SlidingCounter {
    var limit: nat
    var events: seq<Event>
    var waiters: seq<Waiter>
    var futures: map<nat, FutureState>

    ghost function View(): Counter
      reads this
    {
      Counter(limit, events, waiters, futures)
    }

    constructor (limit: nat)
      ensures View() == Counter(limit, [], [], map[])
    {
      this.limit := limit;
      events, waiters, futures := [], [], map[];
    }

    method Expire(now: real)
      modifies this`events
      ensures events == Expired(old(events), now)
    {
      while |events| > 0 && events[0].ts < now - WINDOW_SECONDS
        invariant Expired(events, now) == Expired(old(events), now)
        decreases |events|
      {
        events := events[1..];
      }
    }

    method Sum() returns (sum: int)
      ensures sum == Total(events)
    {
      sum := 0;
      for i := 0 to |events|
        invariant sum == Total(events[..i])
      {
        assert events[..i + 1][..i] == events[..i];
        sum := sum + events[i].n;
      }
      assert events[..|events|] == events;
    }

    method Current(now: real) returns (sum: int)
      requires Sorted(events) && Positive(events)
      modifies this`events
      ensures sum == old(Since(events, now - WINDOW_SECONDS))
      ensures events == Expired(old(events), now)
    {
      ExpiredIsWindow(events, now, now);
      Expire(now);
      sum := Sum();
    }

    /** Queues a fresh future when the amount does not fit at once. */
    method TryAcquire(amount: int, now: real, fut: nat) returns (admitted: bool)
      modifies this
      ensures (View(), admitted) == Acquire(old(View()), amount, now, fut)
      ensures old(Sorted(events) && Positive(events)) ==> (admitted <==> old(Admits(View(), amount, now)))
    {
      if Sorted(events) && Positive(events) {
        AcquireAdmitsIff(View(), amount, now, fut);
      }
      if limit == 0 || amount <= 0 {
        return true;
      }
      Expire(now);
      var sum := Sum();
      if sum + amount <= limit && |waiters| == 0 {
        return true;
      }
      futures := futures[fut := Pending];
      waiters := waiters + [Waiter(amount, fut)];
      return false;
    }

    method Abandon(amount: int, fut: nat)
      modifies this`waiters
      ensures View() == Forget(old(View()), amount, fut)
    {
      var w := Waiter(amount, fut);
      var i := 0;
      while i < |waiters| && waiters[i] != w
        invariant 0 <= i <= |waiters|
        invariant waiters == old(waiters)
        invariant RemoveFirst(waiters, w) == waiters[..i] + RemoveFirst(waiters[i..], w)
      {
        assert waiters[..i + 1] == waiters[..i] + [waiters[i]];
        i := i + 1;
      }
      if i < |waiters| {
        waiters := waiters[..i] + waiters[i + 1..];
      } else {
        assert waiters[..i] + RemoveFirst(waiters[i..], w) == waiters;
      }
    }

    method ChargeUnits(amount: int, now: real)
      modifies this
      ensures View() == Charge(old(View()), amount, now)
      ensures old(Sorted(events) && Positive(events) && NoLaterThan(events, now)) && limit > 0 && amount > 0 ==>
        forall cutoff :: cutoff >= now - WINDOW_SECONDS ==>
          Since(events, cutoff) == Since(old(events), cutoff) + if now >= cutoff then amount else 0
    {
      if Sorted(events) && Positive(events) && NoLaterThan(events, now) && limit > 0 && amount > 0 {
        forall cutoff | cutoff >= now - WINDOW_SECONDS
          ensures Since(Charge(View(), amount, now).events, cutoff) ==
                  Since(events, cutoff) + if now >= cutoff then amount else 0
        {
          ChargeRecords(View(), amount, now, cutoff);
        }
      }
      if limit == 0 || amount <= 0 {
        return;
      }
      Expire(now);
      events := events + [Event(now, amount)];
      WakeWaiters(now);
    }

    method RefundUnits(amount: int, now: real)
      requires Positive(events)
      modifies this
      ensures View() == Refund(old(View()), amount, now)
    {
      if limit == 0 || amount <= 0 {
        return;
      }
      var remaining := amount;
      var i := |events| - 1;
      while remaining > 0 && i >= 0
        invariant -1 <= i < |events|
        invariant 0 <= remaining
        invariant Positive(events)
        invariant remaining > 0 ==> i == |events| - 1
        invariant Refunded(events, remaining) == Refunded(old(events), amount)
        invariant this.limit == old(this.limit) && waiters == old(waiters) && futures == old(futures)
      {
        ghost var before := events;
        var e := events[i];
        var take := if e.n < remaining then e.n else remaining;
        remaining := remaining - take;
        if e.n - take == 0 {
          events := events[..i] + events[i + 1..];
          assert events == before[..|before| - 1];
        } else {
          events := events[i := Event(e.ts, e.n - take)];
          assert events == before[..|before| - 1] + [Event(e.ts, e.n - take)];
        }
        i := i - 1;
      }
      WakeWaiters(now);
    }

    method WakeWaiters(now: real)
      modifies this
      ensures View() == Wake(old(View()), now)
      ensures old(Sorted(events) && Positive(events)) ==> WokenUp(old(View()), View(), now)
    {
      if Sorted(events) && Positive(events) {
        WakeServes(View(), now);
      }
      if |waiters| == 0 {
        return;
      }
      Expire(now);
      var current := Sum();
      while |waiters| > 0 && current + waiters[0].need <= limit
        invariant limit == old(limit) && events == Expired(old(events), now)
        invariant Woken(current, limit, waiters, futures)
               == Woken(Total(events), limit, old(waiters), old(futures))
        decreases |waiters|
      {
        var w := waiters[0];
        waiters := waiters[1..];
        if w.fut in futures && futures[w.fut].Pending? {
          futures := futures[w.fut := Resolved];
        }
        current := current + w.need;
      }
    }

    method ChangeLimit(newLimit: nat, now: real)
      modifies this
      ensures View() == SetLimit(old(View()), newLimit, now) && limit == newLimit
      ensures old(Sorted(events) && Positive(events)) ==> WokenUp(old(View()).(limit := newLimit), View(), now)
    {
      limit := newLimit;
      WakeWaiters(now);
    }
  }

  /** The handle that a granted slot hands out. */
  class SlotToken {
    const tpm: SlidingCounter?
    const reserved: int
    var settled: bool

    constructor (tpm: SlidingCounter?, reserved: int)
      ensures this.tpm == tpm && this.reserved == reserved && !settled
    {
      this.tpm, this.reserved, settled := tpm, reserved, false;
    }

    /** The first call wins: later calls leave the counter alone. */
    method Settle(tokens: int, now: real)
      requires tpm != null ==> Positive(tpm.events)
      modifies this, tpm
      ensures settled
      ensures tpm != null && !old(settled) ==> tpm.View() == SettleOn(old(tpm.View()), reserved, tokens, now)
      ensures tpm != null && old(settled) ==> tpm.View() == old(tpm.View())
    {
      if settled {
        return;
      }
      settled := true;
      if tpm == null {
        return;
      }
      if reserved != 0 {
        tpm.RefundUnits(reserved, now);
      }
      if tokens > 0 {
        tpm.ChargeUnits(tokens, now);
      }
    }
  }
}
