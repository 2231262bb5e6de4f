/** What an epoch reports: the losses of its batches and their mean over samples. */
module EpochReports {
  import opened Options
  import opened TrainingCassette

  /** The losses of the first batches of an epoch, each as often as the batch has samples. */
  function Weighted(b: Behaviour, e: nat, losses: seq<real>): real {
    if |losses| == 0 then 0.0
    else
      var n := |losses| - 1;
      Weighted(b, e, losses[..n]) + losses[n] * |b.inputs(e, n)| as real
  }

  function Samples(b: Behaviour, e: nat, n: nat): nat {
    if n == 0 then 0 else Samples(b, e, n - 1) + |b.inputs(e, n - 1)|
  }

  ghost predicate Shows(events: seq<Seen>, losses: seq<real>) {
    |events| == |losses| && forall i :: 0 <= i < |losses| ==> events[i].BatchEnd? && events[i].loss == losses[i]
  }

  /** Each batch is judged on the values that the batches before it left. */
  ghost predicate Judged(sh: Shape, b: Behaviour, e: nat, r: Recording, losses: seq<real>)
    requires sh.accumulation >= 1 && |r.session.values| == |sh.paths|
  {
    forall i :: 0 <= i < |losses| ==> losses[i] == b.loss(e, i, RecordBatches(sh, b, e, i, r).session.values)
  }

  /** Each batch is shown with the values it left. */
  ghost predicate ShownAfter(sh: Shape, b: Behaviour, e: nat, r: Recording, events: seq<Seen>)
    requires sh.accumulation >= 1 && |r.session.values| == |sh.paths|
  {
    forall i :: 0 <= i < |events| ==> events[i].values == RecordBatches(sh, b, e, i + 1, r).session.values
  }

  ghost predicate Tallied(b: Behaviour, e: nat, losses: seq<real>, before: seq<Seen>, events: seq<Seen>, s: Session) {
    && s.trace == before + events && Shows(events, losses)
    && s.lossSum == Weighted(b, e, losses) && s.samples == Samples(b, e, |losses|)
  }

  lemma OneMoreTallied(sh: Shape, b: Behaviour, e: nat, losses: seq<real>, before: seq<Seen>, events: seq<Seen>,
                       m: Recording)
    requires sh.accumulation >= 1 && |m.session.values| == |sh.paths|
    requires Tallied(b, e, losses, before, events, m.session)
    ensures var m', loss := RecordBatch(sh, b, e, |losses|, m), b.loss(e, |losses|, m.session.values);
      Tallied(b, e, losses + [loss], before, events + [BatchEnd(m'.session.values, loss)], m'.session)
  {
    var loss := b.loss(e, |losses|, m.session.values);
    assert (losses + [loss])[..|losses|] == losses;
  }

  lemma {:induction false} BatchesTallied(sh: Shape, b: Behaviour, e: nat, n: nat, r: Recording)
    returns (losses: seq<real>, events: seq<Seen>)
    requires sh.accumulation >= 1 && |r.session.values| == |sh.paths|
    ensures |losses| == |events| == n && Judged(sh, b, e, r, losses) && ShownAfter(sh, b, e, r, events)
    ensures Tallied(b, e, losses, r.session.trace, events, RecordBatches(sh, b, e, n, r).session)
  {
    hide RecordBatch;
    if n == 0 {
      losses, events := [], [];
      assert r.session.trace + [] == r.session.trace;
    } else {
      hide Tallied;
      var m := RecordBatches(sh, b, e, n - 1, r);
      losses, events := BatchesTallied(sh, b, e, n - 1, r);
      OneMoreTallied(sh, b, e, losses, r.session.trace, events, m);
      var loss := b.loss(e, n - 1, m.session.values);
      events := events + [BatchEnd(RecordBatch(sh, b, e, n - 1, m).session.values, loss)];
      losses := losses + [loss];
    }
  }

  lemma {:induction false} BatchesKeepSchedule(sh: Shape, b: Behaviour, e: nat, n: nat, r: Recording)
    requires sh.accumulation >= 1 && |r.session.values| == |sh.paths|
    ensures RecordBatches(sh, b, e, n, r).session.sched == r.session.sched
  {
    if n > 0 {
      BatchesKeepSchedule(sh, b, e, n - 1, r);
    }
  }

  lemma MeanIs(s: Session)
    ensures s.samples > 0 ==> MeanLoss(s) * s.samples as real == s.lossSum
    ensures s.samples == 0 ==> MeanLoss(s) == 0.0
  {
  }

  /** WHAT AN EPOCH REPORTS: the loss of every batch in order, each on the values that the batches before
      left and shown with those it leaves; then the values at the end, the mean of the losses over all
      samples, and the scheduler's state, which moves once per epoch. */
  lemma EpochReported(sh: Shape, b: Behaviour, e: nat, r: Recording)
    returns (losses: seq<real>, events: seq<Seen>, mean: real)
    requires sh.accumulation >= 1 && |r.session.values| == |sh.paths|
    ensures |losses| == sh.batches(e) && Judged(sh, b, e, r, losses)
    ensures Shows(events, losses) && ShownAfter(sh, b, e, r, events)
    ensures var s := RecordEpoch(sh, b, e, r).session;
      s.trace == r.session.trace + events + [EpochEnd(s.values, mean, s.sched)]
    ensures var n := Samples(b, e, sh.batches(e));
      if n > 0 then mean * n as real == Weighted(b, e, losses) else mean == 0.0
    ensures RecordEpoch(sh, b, e, r).session.sched ==
            if r.session.sched.Some? then Some(b.tick(e, r.session.sched.value)) else None
  {
    hide RecordBatch, RecordBatches, MeanLoss;
    BatchesKeepSchedule(sh, b, e, sh.batches(e), r);
    losses, events := BatchesTallied(sh, b, e, sh.batches(e), r);
    var f := Flush(sh, b, e, RecordBatches(sh, b, e, sh.batches(e), r));
    mean := MeanLoss(f.session);
    MeanIs(f.session);
  }
}
