/** The training loop as it runs: one object whose fields change batch by batch, proved against the
    functions of `TrainingCassette`. */
module TrainerLoop {
  import opened Options
  import opened TrainingCassette
  import opened TrainingReplay

  class Cassette {
    var file: seq<Entry>
    var entries: map<Key, Entry>

    /** `_load`. */
    method Open()
      modifies this`entries
      ensures entries == Load(file)
    {
      entries := map[];
      for i := 0 to |file|
        invariant entries == Load(file[..i])
      {
        assert file[..i + 1][..i] == file[..i];
        entries := entries[file[i].key := file[i]];
      }
      assert file[..|file|] == file;
    }

    /** `record_train_step`. */
    method RecordStep(line: Entry)
      modifies this
      ensures file == old(file) + [line]
      ensures entries == old(entries)[line.key := line]
    {
      entries := entries[line.key := line];
      file := file + [line];
    }
  }

  class Trainer {
    const sh: Shape
    const b: Behaviour
    var values: seq<Value>
    var sched: Option<int>
    var counter: nat
    var step: nat
    var window: seq<Value>
    var lossSum: real
    var samples: nat
    var trace: seq<Seen>
    var pending: bool

    constructor (sh: Shape, b: Behaviour, values: seq<Value>, sched: Option<int>)
      requires sh.accumulation >= 1 && |values| == |sh.paths|
      ensures Valid() && this.sh == sh && this.b == b && View() == Start(values, sched) && !pending
    {
      this.sh, this.b, this.values, this.sched := sh, b, values, sched;
      counter, step, window, lossSum, samples, trace, pending := 0, 0, [], 0.0, 0, [], false;
    }

    ghost predicate Valid()
      reads this
    {
      sh.accumulation >= 1 && |values| == |sh.paths|
    }

    ghost function View(): Session
      reads this
    {
      Session(values, sched, counter, step, window, lossSum, samples, trace)
    }

    /** The pending flag is whatever replay makes of it: nothing there reads it. */
    ghost function Recorded(c: Cassette): Recording
      reads this, c
    {
      Recording(View(), pending, c.file)
    }

    /** For each stored path, the first parameter that carries it is overwritten. */
    method WriteBack(post: map<string, Value>)
      requires Valid()
      modifies this`values
      ensures values == Restore(sh.paths, old(values), post)
    {
      var todo := post.Keys;
      while todo != {}
        invariant |values| == |sh.paths| && todo <= post.Keys
        invariant forall i :: 0 <= i < |values| ==>
          values[i] == if IsFirst(sh.paths, i) && sh.paths[i] in post && sh.paths[i] !in todo then post[sh.paths[i]]
                       else old(values)[i]
        decreases todo
      {
        var path :| path in todo;
        var p := 0;
        while p < |sh.paths| && sh.paths[p] != path
          invariant 0 <= p <= |sh.paths|
          invariant path !in sh.paths[..p]
        {
          p := p + 1;
        }
        if p < |sh.paths| {
          values := values[p := post[path]];
        }
        todo := todo - {path};
      }
    }

    method Run(e: nat, n: nat) returns (loss: real)
      requires Valid()
      modifies this
      ensures Valid() && View() == RunBatch(b, e, n, old(View())) && pending == b.contributes(e, n)
      ensures loss == b.loss(e, n, old(values))
    {
      loss := b.loss(e, n, values);
      window, counter := window + b.inputs(e, n), counter + 1;
      lossSum, samples := lossSum + loss * |b.inputs(e, n)| as real, samples + |b.inputs(e, n)|;
      pending := b.contributes(e, n);
    }

    method OptimizerStep(e: nat)
      requires Valid()
      modifies this`values, this`pending
      ensures Valid() && View() == Stepped(sh, b, e, old(View())) && !pending
    {
      values, pending := Written(sh, b, e, step), false;
    }

    method RecordOne(e: nat, n: nat, c: Cassette)
      requires Valid()
      modifies this, c
      ensures Valid() && Recorded(c) == RecordBatch(sh, b, e, n, old(Recorded(c)))
    {
      ghost var was := View();
      var due := (counter + 1) % sh.accumulation == 0;
      var loss := Run(e, n);
      if due {
        var key := Key(e, step, window, ByPath(sh.paths, values));
        OptimizerStep(e);
        var line := Entry(key, loss, |b.inputs(e, n)|, ByPath(sh.paths, values), sched);
        assert line == StepLine(sh, b, e, n, was);
        c.RecordStep(line);
        window, step := [], step + 1;
      }
      trace := trace + [BatchEnd(values, loss)];
    }

    method ReplayOne(e: nat, n: nat, c: Cassette) returns (missed: bool)
      requires Valid()
      modifies this
      ensures Valid()
      ensures var o := ReplayBatch(sh, b, e, n, old(View()), c.entries);
              missed == o.None? && (o.Some? ==> View() == o.value)
    {
      hide Restore, ByPath, RunBatch;
      missed := false;
      if (counter + 1) % sh.accumulation != 0 {
        var loss := Run(e, n);
        trace := trace + [BatchEnd(values, loss)];
      } else {
        window, counter := window + b.inputs(e, n), counter + 1;
        var key := Key(e, step, window, ByPath(sh.paths, values));
        if key !in c.entries {
          return true;
        }
        var x := c.entries[key];
        lossSum, samples := lossSum + x.meanLoss * x.samples as real, samples + x.samples;
        WriteBack(x.post);
        if x.lr.Some? && sched.Some? {
          sched := x.lr;
        }
        window, step := [], step + 1;
        trace := trace + [BatchEnd(values, x.meanLoss)];
      }
    }

    method Close(e: nat)
      requires Valid()
      modifies this
      ensures Valid() && View() == CloseEpoch(b, e, old(View())) && pending == old(pending)
    {
      if sched.Some? {
        sched := Some(b.tick(e, sched.value));
      }
      var trainLoss := if samples > 0 then lossSum / samples as real else 0.0;
      trace := trace + [EpochEnd(values, trainLoss, sched)];
    }

    method RecordOneEpoch(e: nat, c: Cassette)
      requires Valid()
      modifies this, c
      ensures Valid() && Recorded(c) == RecordEpoch(sh, b, e, old(Recorded(c)))
    {
      ghost var r := Recorded(c);
      step, window, lossSum, samples := 0, [], 0.0, 0;
      for n := 0 to sh.batches(e)
        invariant Valid() && Recorded(c) == RecordBatches(sh, b, e, n, r)
      {
        RecordOne(e, n, c);
      }
      ghost var all := Recorded(c);
      if pending {
        var key := Key(e, step, window, ByPath(sh.paths, values));
        OptimizerStep(e);
        c.RecordStep(Entry(key, 0.0, |window|, ByPath(sh.paths, values), sched));
      }
      assert Recorded(c) == Flush(sh, b, e, all);
      Close(e);
    }

    method ReplayOneEpoch(e: nat, c: Cassette) returns (missed: bool)
      requires Valid()
      modifies this
      ensures Valid()
      ensures var o := ReplayEpoch(sh, b, e, old(View()), c.entries);
              missed == o.None? && (o.Some? ==> View() == o.value)
    {
      ghost var s := View();
      step, window, lossSum, samples := 0, [], 0.0, 0;
      for n := 0 to sh.batches(e)
        invariant Valid() && ReplayBatches(sh, b, e, n, s, c.entries) == Some(View())
      {
        missed := ReplayOne(e, n, c);
        if missed {
          MissedForGood(sh, b, e, n + 1, sh.batches(e), s, c.entries);
          return;
        }
      }
      Close(e);
      missed := false;
    }

    /** `fit` inside a recording cassette context. */
    method FitRecording(epochs: nat, c: Cassette)
      requires Valid()
      modifies this, c
      ensures Valid() && Recorded(c) == Record(sh, b, epochs, old(Recorded(c)))
    {
      ghost var r := Recorded(c);
      for e := 0 to epochs
        invariant Valid() && Recorded(c) == Record(sh, b, e, r)
      {
        RecordOneEpoch(e, c);
      }
    }

    /** `fit` inside a replaying cassette context; `missed`: TrainCassetteMiss was raised. */
    method FitReplaying(epochs: nat, c: Cassette) returns (missed: bool)
      requires Valid()
      modifies this, c`entries
      ensures Valid() && c.entries == Load(c.file)
      ensures var o := Replay(sh, b, epochs, old(View()), Load(c.file));
              missed == o.None? && (o.Some? ==> View() == o.value)
    {
      c.Open();
      ghost var s := View();
      for e := 0 to epochs
        invariant Valid() && c.entries == Load(c.file)
        invariant Replay(sh, b, e, s, c.entries) == Some(View())
      {
        missed := ReplayOneEpoch(e, c);
        if missed {
          EpochMissedForGood(sh, b, e + 1, epochs, s, c.entries);
          return;
        }
      }
      missed := false;
    }
  }

  /** Record a run, then replay it from the same start: the second trainer ends as the first did,
      having shown the same values and losses on the way, and never misses. */
  method RecordThenReplay(sh: Shape, b: Behaviour, values: seq<Value>, sched: Option<int>, epochs: nat, c: Cassette)
    returns (first: Trainer, second: Trainer, missed: bool)
    requires sh.accumulation >= 1 && |values| == |sh.paths| && Replayable(sh, epochs)
    modifies c
    ensures !missed && second.values == first.values && second.sched == first.sched && second.trace == first.trace
  {
    ghost var earlier := c.file;
    first := new Trainer(sh, b, values, sched);
    first.FitRecording(epochs, c);
    second := new Trainer(sh, b, values, sched);
    missed := second.FitReplaying(epochs, c);
    ReplayRefinesRecord(sh, b, epochs, values, sched, earlier);
  }

  lemma {:induction false} MissedForGood(sh: Shape, b: Behaviour, e: nat, n: nat, n': nat, s: Session,
                                         entries: map<Key, Entry>)
    requires sh.accumulation >= 1 && |s.values| == |sh.paths| && n <= n'
    requires ReplayBatches(sh, b, e, n, s, entries).None?
    ensures ReplayBatches(sh, b, e, n', s, entries).None?
  {
    if n < n' {
      MissedForGood(sh, b, e, n, n' - 1, s, entries);
    }
  }

  lemma {:induction false} EpochMissedForGood(sh: Shape, b: Behaviour, n: nat, n': nat, s: Session,
                                              entries: map<Key, Entry>)
    requires sh.accumulation >= 1 && |s.values| == |sh.paths| && n <= n'
    requires Replay(sh, b, n, s, entries).None?
    ensures Replay(sh, b, n', s, entries).None?
  {
    if n < n' {
      EpochMissedForGood(sh, b, n, n' - 1, s, entries);
    }
  }
}
