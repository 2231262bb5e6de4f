/** When does replaying a training cassette reproduce the run that recorded it? First the simulation
    of a recording by its replay, then, for each way the condition can fail, an optimizer whose
    replay differs, and so the exact condition. */
module TrainingReplay {
  import opened Options
  import opened TrainingCassette

  // ---- Lines are stamped in increasing order ------------------------------------------

  ghost predicate Before(k: Key, e: nat, step: nat) {
    k.epoch < e || (k.epoch == e && k.step < step)
  }

  /** From line `base` on, every line is stamped before `(e, step)` and after the lines above it. */
  ghost predicate Stamped(file: seq<Entry>, base: nat, e: nat, step: nat) {
    base <= |file| &&
    (forall i :: base <= i < |file| ==> Before(file[i].key, e, step)) &&
    (forall i, j :: base <= i < j < |file| ==> Before(file[i].key, file[j].key.epoch, file[j].key.step))
  }

  lemma LineAdded(file: seq<Entry>, base: nat, line: Entry, e: nat, step: nat)
    requires Stamped(file, base, line.key.epoch, line.key.step) && Before(line.key, e, step)
    ensures Stamped(file + [line], base, e, step)
  {
  }

  lemma {:induction false} BatchesStamped(sh: Shape, b: Behaviour, e: nat, n: nat, r: Recording, base: nat)
    requires sh.accumulation >= 1 && |r.session.values| == |sh.paths|
    requires Stamped(r.file, base, e, 0)
    ensures var r' := RecordBatches(sh, b, e, n, r); Stamped(r'.file, base, e, r'.session.step)
  {
    if n > 0 {
      BatchesStamped(sh, b, e, n - 1, r, base);
      var m := RecordBatches(sh, b, e, n - 1, r);
      if StepDue(sh, m.session) {
        LineAdded(m.file, base, StepLine(sh, b, e, n - 1, m.session), e, m.session.step + 1);
      }
    }
  }

  lemma EpochStamped(sh: Shape, b: Behaviour, e: nat, r: Recording, base: nat)
    requires sh.accumulation >= 1 && |r.session.values| == |sh.paths|
    requires Stamped(r.file, base, e, 0)
    ensures Stamped(RecordEpoch(sh, b, e, r).file, base, e + 1, 0)
  {
    BatchesStamped(sh, b, e, sh.batches(e), r, base);
    var m := RecordBatches(sh, b, e, sh.batches(e), r);
    if m.pending {
      LineAdded(m.file, base, Line(sh, b, e, m.session, 0.0, |m.session.window|), e + 1, 0);
    }
  }

  lemma {:induction false} RecordStamped(sh: Shape, b: Behaviour, epochs: nat, r: Recording)
    requires sh.accumulation >= 1 && |r.session.values| == |sh.paths|
    ensures Stamped(Record(sh, b, epochs, r).file, |r.file|, epochs, 0)
  {
    if epochs > 0 {
      RecordStamped(sh, b, epochs - 1, r);
      EpochStamped(sh, b, epochs - 1, Record(sh, b, epochs - 1, r), |r.file|);
    }
  }

  lemma LineFound(file: seq<Entry>, base: nat, e: nat, i: nat)
    requires Stamped(file, base, e, 0) && base <= i < |file|
    ensures file[i].key in Load(file) && Load(file)[file[i].key] == file[i]
  {
    forall j | i < j < |file|
      ensures file[j].key != file[i].key
    {
      assert Before(file[i].key, file[j].key.epoch, file[j].key.step);
    }
    LoadIsLastLine(file, i);
  }

  // ---- Replay follows the recording ----------------------------------------------------

  lemma BatchReplays(sh: Shape, b: Behaviour, e: nat, n: nat, r: Recording, entries: map<Key, Entry>)
    requires sh.accumulation >= 1 && |r.session.values| == |sh.paths| && Distinct(sh.paths)
    requires StepDue(sh, r.session) ==> Holds(entries, StepLine(sh, b, e, n, r.session))
    ensures ReplayBatch(sh, b, e, n, r.session, entries) == Some(RecordBatch(sh, b, e, n, r).session)
  {
    if StepDue(sh, r.session) {
      RestoreDistinct(sh.paths, r.session.values, Written(sh, b, e, r.session.step));
    }
  }

  ghost predicate Holds(entries: map<Key, Entry>, line: Entry) {
    line.key in entries && entries[line.key] == line
  }

  ghost predicate HoldsFrom(entries: map<Key, Entry>, file: seq<Entry>, base: nat) {
    forall i :: base <= i < |file| ==> Holds(entries, file[i])
  }

  lemma {:induction false} BatchesGrow(sh: Shape, b: Behaviour, e: nat, n: nat, r: Recording)
    requires sh.accumulation >= 1 && |r.session.values| == |sh.paths|
    ensures Extends(RecordBatches(sh, b, e, n, r).file, r.file)
  {
    if n > 0 {
      BatchesGrow(sh, b, e, n - 1, r);
    }
  }

  lemma {:induction false} RecordGrows(sh: Shape, b: Behaviour, n: nat, epochs: nat, r: Recording)
    requires sh.accumulation >= 1 && |r.session.values| == |sh.paths| && n <= epochs
    ensures Extends(Record(sh, b, epochs, r).file, Record(sh, b, n, r).file)
  {
    hide RecordEpoch;
    if n < epochs {
      RecordGrows(sh, b, n, epochs - 1, r);
      EpochGrows(sh, b, epochs - 1, Record(sh, b, epochs - 1, r));
    }
  }

  lemma EpochGrows(sh: Shape, b: Behaviour, e: nat, m: Recording)
    requires sh.accumulation >= 1 && |m.session.values| == |sh.paths|
    ensures Extends(RecordEpoch(sh, b, e, m).file, m.file)
  {
    BatchesGrow(sh, b, e, sh.batches(e), m);
  }

  ghost predicate Extends(long: seq<Entry>, short: seq<Entry>) {
    |short| <= |long| && forall i :: 0 <= i < |short| ==> long[i] == short[i]
  }

  lemma {:induction false} BatchesReplay(sh: Shape, b: Behaviour, e: nat, n: nat, r: Recording,
                                         entries: map<Key, Entry>, base: nat)
    requires sh.accumulation >= 1 && |r.session.values| == |sh.paths| && (Distinct(sh.paths) || n == 0)
    requires base <= |r.file| && HoldsFrom(entries, RecordBatches(sh, b, e, n, r).file, base)
    ensures ReplayBatches(sh, b, e, n, r.session, entries) == Some(RecordBatches(sh, b, e, n, r).session)
  {
    hide RecordBatch, ReplayBatch;
    if n > 0 {
      HeldBatchBefore(sh, b, e, n - 1, r, entries, base);
      BatchesReplay(sh, b, e, n - 1, r, entries, base);
      OneMoreReplays(sh, b, e, n - 1, r, entries, base);
    }
  }

  lemma OneMoreReplays(sh: Shape, b: Behaviour, e: nat, n: nat, r: Recording, entries: map<Key, Entry>, base: nat)
    requires sh.accumulation >= 1 && |r.session.values| == |sh.paths| && Distinct(sh.paths)
    requires base <= |RecordBatches(sh, b, e, n, r).file|
    requires HoldsFrom(entries, RecordBatches(sh, b, e, n + 1, r).file, base)
    requires ReplayBatches(sh, b, e, n, r.session, entries) == Some(RecordBatches(sh, b, e, n, r).session)
    ensures ReplayBatches(sh, b, e, n + 1, r.session, entries) == Some(RecordBatches(sh, b, e, n + 1, r).session)
  {
    NextBatchReplays(sh, b, e, n, RecordBatches(sh, b, e, n, r), entries, base);
  }

  lemma HeldBatchBefore(sh: Shape, b: Behaviour, e: nat, n: nat, r: Recording, entries: map<Key, Entry>, base: nat)
    requires sh.accumulation >= 1 && |r.session.values| == |sh.paths| && base <= |r.file|
    requires HoldsFrom(entries, RecordBatches(sh, b, e, n + 1, r).file, base)
    ensures base <= |RecordBatches(sh, b, e, n, r).file|
    ensures HoldsFrom(entries, RecordBatches(sh, b, e, n, r).file, base)
  {
    BatchesGrow(sh, b, e, n, r);
    HeldBefore(entries, RecordBatches(sh, b, e, n + 1, r).file, RecordBatches(sh, b, e, n, r).file, base);
  }

  lemma NextBatchReplays(sh: Shape, b: Behaviour, e: nat, n: nat, m: Recording, entries: map<Key, Entry>, base: nat)
    requires sh.accumulation >= 1 && |m.session.values| == |sh.paths| && Distinct(sh.paths)
    requires base <= |m.file| && HoldsFrom(entries, RecordBatch(sh, b, e, n, m).file, base)
    ensures ReplayBatch(sh, b, e, n, m.session, entries) == Some(RecordBatch(sh, b, e, n, m).session)
  {
    if StepDue(sh, m.session) {
      assert RecordBatch(sh, b, e, n, m).file[|m.file|] == StepLine(sh, b, e, n, m.session);
    }
    BatchReplays(sh, b, e, n, m, entries);
  }

  function BatchesUpTo(sh: Shape, epochs: nat): nat {
    if epochs == 0 then 0 else BatchesUpTo(sh, epochs - 1) + sh.batches(epochs - 1)
  }

  lemma {:induction false} BatchesCounted(sh: Shape, b: Behaviour, e: nat, n: nat, r: Recording)
    requires sh.accumulation >= 1 && |r.session.values| == |sh.paths|
    ensures var r' := RecordBatches(sh, b, e, n, r);
            r'.session.counter == r.session.counter + n &&
            (n == 0 ==> r'.pending == r.pending) &&
            (n > 0 ==> r'.pending == (r'.session.counter % sh.accumulation != 0 && b.contributes(e, n - 1)))
  {
    if n > 0 {
      BatchesCounted(sh, b, e, n - 1, r);
    }
  }

  lemma {:induction false} EpochsCounted(sh: Shape, b: Behaviour, epochs: nat, r: Recording)
    requires sh.accumulation >= 1 && |r.session.values| == |sh.paths|
    requires !r.pending
    ensures var r' := Record(sh, b, epochs, r);
            r'.session.counter == r.session.counter + BatchesUpTo(sh, epochs) && !r'.pending
  {
    hide RecordBatch, RecordBatches;
    if epochs > 0 {
      EpochsCounted(sh, b, epochs - 1, r);
      BatchesCounted(sh, b, epochs - 1, sh.batches(epochs - 1), Record(sh, b, epochs - 1, r));
    }
  }

  /** The epoch has no batches or ends on the last batch of a window. */
  ghost predicate EndsWindow(sh: Shape, e: nat)
    requires sh.accumulation >= 1
  {
    sh.batches(e) == 0 || BatchesUpTo(sh, e + 1) % sh.accumulation == 0
  }

  ghost predicate WindowsClose(sh: Shape, epochs: nat)
    requires sh.accumulation >= 1
  {
    forall e: nat :: e < epochs ==> EndsWindow(sh, e)
  }

  ghost predicate Reproduced(r: Session, o: Option<Session>) {
    o.Some? && o.value.values == r.values && o.value.sched == r.sched && o.value.trace == r.trace
  }

  /** The condition a user can check before recording: windows close with their epochs, and no two
      parameters share a path (unless there is no batch at all). */
  ghost predicate Replayable(sh: Shape, epochs: nat)
    requires sh.accumulation >= 1
  {
    WindowsClose(sh, epochs) && (Distinct(sh.paths) || BatchesUpTo(sh, epochs) == 0)
  }

  lemma {:induction false} UpToGrows(sh: Shape, e: nat, epochs: nat)
    requires e <= epochs
    ensures BatchesUpTo(sh, e) <= BatchesUpTo(sh, epochs)
  {
    if e < epochs {
      UpToGrows(sh, e, epochs - 1);
    }
  }

  /** What replaying `epochs` epochs relies on: the condition above, and the lines of the recording. */
  ghost predicate Ready(sh: Shape, b: Behaviour, epochs: nat, r: Recording, entries: map<Key, Entry>) {
    sh.accumulation >= 1 && |r.session.values| == |sh.paths| && r.session.counter == 0 && !r.pending &&
    Replayable(sh, epochs) && HoldsFrom(entries, Record(sh, b, epochs, r).file, |r.file|)
  }

  lemma {:induction false} EpochsReplay(sh: Shape, b: Behaviour, n: nat, epochs: nat, r: Recording,
                                        entries: map<Key, Entry>)
    requires Ready(sh, b, epochs, r, entries) && n <= epochs
    ensures Replay(sh, b, n, r.session, entries) == Some(Record(sh, b, n, r).session)
  {
    hide RecordEpoch, ReplayEpoch, Replayable, HoldsFrom;
    if n > 0 {
      EpochsReplay(sh, b, n - 1, epochs, r, entries);
      NextEpochReplays(sh, b, n - 1, epochs, r, entries);
    }
  }

  lemma NextEpochReplays(sh: Shape, b: Behaviour, e: nat, epochs: nat, r: Recording, entries: map<Key, Entry>)
    requires Ready(sh, b, epochs, r, entries) && e < epochs
    requires Replay(sh, b, e, r.session, entries) == Some(Record(sh, b, e, r).session)
    ensures Replay(sh, b, e + 1, r.session, entries) == Some(Record(sh, b, e + 1, r).session)
  {
    EpochsCounted(sh, b, e, r);
    LinesHeld(sh, b, e, epochs, r, entries);
    UpToGrows(sh, e + 1, epochs);
    assert EndsWindow(sh, e);
    EpochReplays(sh, b, e, Record(sh, b, e, r), entries, |r.file|);
  }

  lemma LinesHeld(sh: Shape, b: Behaviour, e: nat, epochs: nat, r: Recording, entries: map<Key, Entry>)
    requires sh.accumulation >= 1 && |r.session.values| == |sh.paths| && e < epochs
    requires HoldsFrom(entries, Record(sh, b, epochs, r).file, |r.file|)
    ensures |r.file| <= |Record(sh, b, e, r).file|
    ensures HoldsFrom(entries, RecordEpoch(sh, b, e, Record(sh, b, e, r)).file, |r.file|)
  {
    RecordGrows(sh, b, e + 1, epochs, r);
    RecordGrows(sh, b, 0, e, r);
    HeldBefore(entries, Record(sh, b, epochs, r).file, Record(sh, b, e + 1, r).file, |r.file|);
  }

  lemma HeldBefore(entries: map<Key, Entry>, long: seq<Entry>, short: seq<Entry>, base: nat)
    requires Extends(long, short) && HoldsFrom(entries, long, base)
    ensures HoldsFrom(entries, short, base)
  {
    forall i | base <= i < |short|
      ensures Holds(entries, short[i])
    {
      assert long[i] == short[i];
    }
  }

  /** One epoch: its window closes, so the recording has nothing to flush. */
  lemma EpochReplays(sh: Shape, b: Behaviour, e: nat, m: Recording, entries: map<Key, Entry>, base: nat)
    requires sh.accumulation >= 1 && |m.session.values| == |sh.paths|
    requires m.session.counter == BatchesUpTo(sh, e) && !m.pending && base <= |m.file|
    requires EndsWindow(sh, e) && (Distinct(sh.paths) || BatchesUpTo(sh, e + 1) == 0)
    requires HoldsFrom(entries, RecordEpoch(sh, b, e, m).file, base)
    ensures ReplayEpoch(sh, b, e, m.session, entries) == Some(RecordEpoch(sh, b, e, m).session)
  {
    BatchesCounted(sh, b, e, sh.batches(e), m);
    assert BatchesUpTo(sh, e + 1) == BatchesUpTo(sh, e) + sh.batches(e);
    var all := RecordBatches(sh, b, e, sh.batches(e), m);
    assert !all.pending;
    assert Flush(sh, b, e, all) == all;
    assert RecordEpoch(sh, b, e, m).session == CloseEpoch(b, e, all.session);
    BatchesReplay(sh, b, e, sh.batches(e), m, entries, base);
  }

  /** Replaying what `epochs` recorded epochs left on the file (below any lines already there, with
      the same initial values and batches) shows, after every number of epochs, the same values, the
      same scheduler state, and the same values and losses after each batch and epoch on the way. */
  ghost predicate Refines(sh: Shape, b: Behaviour, epochs: nat, values: seq<Value>, sched: Option<int>,
                          earlier: seq<Entry>)
    requires sh.accumulation >= 1 && |values| == |sh.paths|
  {
    var begin := Begin(values, sched, earlier);
    var file := Record(sh, b, epochs, begin).file;
    forall n: nat :: n <= epochs ==>
      Reproduced(Record(sh, b, n, begin).session, Replay(sh, b, n, begin.session, Load(file)))
  }

  /** REPLAY REFINES RECORD: for any optimizer, loss and schedule, and whatever the file held. */
  lemma ReplayRefinesRecord(sh: Shape, b: Behaviour, epochs: nat, values: seq<Value>, sched: Option<int>,
                            earlier: seq<Entry>)
    requires sh.accumulation >= 1 && |values| == |sh.paths|
    requires Replayable(sh, epochs)
    ensures Refines(sh, b, epochs, values, sched, earlier)
  {
    var r := Begin(values, sched, earlier);
    var file := Record(sh, b, epochs, r).file;
    RecordStamped(sh, b, epochs, r);
    forall i | |r.file| <= i < |file|
      ensures Holds(Load(file), file[i])
    {
      LineFound(file, |r.file|, epochs, i);
    }
    forall n: nat | n <= epochs
      ensures Reproduced(Record(sh, b, n, r).session, Replay(sh, b, n, r.session, Load(file)))
    {
      EpochsReplay(sh, b, n, epochs, r, Load(file));
    }
  }

  /** Without accumulation, distinct paths are enough. */
  lemma StepPerBatchRefines(sh: Shape, b: Behaviour, epochs: nat, values: seq<Value>, sched: Option<int>,
                            earlier: seq<Entry>)
    requires sh.accumulation == 1 && |values| == |sh.paths| && Distinct(sh.paths)
    ensures Refines(sh, b, epochs, values, sched, earlier)
  {
    ReplayRefinesRecord(sh, b, epochs, values, sched, earlier);
  }

  // ---- The condition is necessary --------------------------------------------------------

  /** Replay counts batches and steps as the recording does, whatever the values are. */
  ghost predicate InStep(r: Session, o: Option<Session>) {
    o.Some? ==> o.value.counter == r.counter && o.value.step == r.step
  }

  lemma BatchInStep(sh: Shape, b: Behaviour, e: nat, n: nat, m: Recording, t: Session, entries: map<Key, Entry>)
    requires sh.accumulation >= 1 && |m.session.values| == |t.values| == |sh.paths|
    requires t.counter == m.session.counter && t.step == m.session.step
    ensures InStep(RecordBatch(sh, b, e, n, m).session, ReplayBatch(sh, b, e, n, t, entries))
  {
  }

  lemma {:induction false} BatchesInStep(sh: Shape, b: Behaviour, e: nat, n: nat, r: Recording, t: Session,
                                         entries: map<Key, Entry>)
    requires sh.accumulation >= 1 && |r.session.values| == |t.values| == |sh.paths|
    requires t.counter == r.session.counter
    ensures InStep(RecordBatches(sh, b, e, n, r).session, ReplayBatches(sh, b, e, n, t, entries))
  {
    hide RecordBatch, ReplayBatch;
    if n > 0 {
      BatchesInStep(sh, b, e, n - 1, r, t, entries);
      var o := ReplayBatches(sh, b, e, n - 1, t, entries);
      if o.Some? {
        BatchInStep(sh, b, e, n - 1, RecordBatches(sh, b, e, n - 1, r), o.value, entries);
      }
    }
  }

  lemma {:induction false} EpochsInStep(sh: Shape, b: Behaviour, n: nat, r: Recording, entries: map<Key, Entry>)
    requires sh.accumulation >= 1 && |r.session.values| == |sh.paths|
    ensures InStep(Record(sh, b, n, r).session, Replay(sh, b, n, r.session, entries))
  {
    hide RecordBatch, ReplayBatch, RecordBatches, ReplayBatches;
    if n > 0 {
      EpochsInStep(sh, b, n - 1, r, entries);
      var o := Replay(sh, b, n - 1, r.session, entries);
      if o.Some? {
        BatchesInStep(sh, b, n - 1, sh.batches(n - 1), Record(sh, b, n - 1, r), o.value, entries);
      }
    }
  }

  /** Every line of `file` stores the values its own step wrote. */
  ghost predicate Truthful(sh: Shape, b: Behaviour, file: seq<Entry>) {
    forall i :: 0 <= i < |file| ==>
      file[i].post == ByPath(sh.paths, Written(sh, b, file[i].key.epoch, file[i].key.step))
  }

  lemma {:induction false} BatchesTruthful(sh: Shape, b: Behaviour, e: nat, n: nat, r: Recording)
    requires sh.accumulation >= 1 && |r.session.values| == |sh.paths|
    requires Truthful(sh, b, r.file)
    ensures Truthful(sh, b, RecordBatches(sh, b, e, n, r).file)
  {
    if n > 0 {
      BatchesTruthful(sh, b, e, n - 1, r);
    }
  }

  lemma {:induction false} RecordTruthful(sh: Shape, b: Behaviour, n: nat, r: Recording)
    requires sh.accumulation >= 1 && |r.session.values| == |sh.paths|
    requires Truthful(sh, b, r.file)
    ensures Truthful(sh, b, Record(sh, b, n, r).file)
  {
    hide RecordEpoch;
    if n > 0 {
      RecordTruthful(sh, b, n - 1, r);
      EpochTruthful(sh, b, n - 1, Record(sh, b, n - 1, r));
    }
  }

  lemma EpochTruthful(sh: Shape, b: Behaviour, e: nat, m: Recording)
    requires sh.accumulation >= 1 && |m.session.values| == |sh.paths|
    requires Truthful(sh, b, m.file)
    ensures Truthful(sh, b, RecordEpoch(sh, b, e, m).file)
  {
    BatchesTruthful(sh, b, e, sh.batches(e), m);
    var all := RecordBatches(sh, b, e, sh.batches(e), m);
    if all.pending {
      var line := Line(sh, b, e, all.session, 0.0, |all.session.window|);
      assert line.post == ByPath(sh.paths, Written(sh, b, line.key.epoch, line.key.step));
    }
  }

  /** An optimizer that leaves zeros before epoch `e0` and the number of the step from there on. */
  function Late(e0: nat): Behaviour {
    Behaviour((e, n) => [], (e, n, v) => 0.0, (e, n) => true, (e, i, k) => if e < e0 then 0 else 1 + i, (e, s) => s)
  }

  /** What parameter 0 holds during a replay of `Late(e0)`. */
  ghost predicate LateValue(e0: nat, e: nat, s: Session) {
    |s.values| > 0 && (e < e0 ==> s.values[0] == 0) && (e == e0 ==> s.values[0] == s.step)
  }

  lemma LateBatch(sh: Shape, e0: nat, e: nat, n: nat, t: Session, file: seq<Entry>)
    requires sh.accumulation >= 1 && |t.values| == |sh.paths|
    requires Truthful(sh, Late(e0), file) && LateValue(e0, e, t)
    ensures var o := ReplayBatch(sh, Late(e0), e, n, t, Load(file)); o.Some? ==> LateValue(e0, e, o.value)
  {
    var b := Late(e0);
    var k := KeyOf(sh, e, t.(window := t.window + b.inputs(e, n)));
    if StepDue(sh, t) && k in Load(file) {
      LoadedFromFile(file, k);
      ByPathIsLast(sh.paths, Written(sh, b, k.epoch, k.step), 0);
    }
  }

  lemma {:induction false} LateBatches(sh: Shape, e0: nat, e: nat, n: nat, t: Session, file: seq<Entry>)
    requires sh.accumulation >= 1 && |t.values| == |sh.paths| >= 1
    requires Truthful(sh, Late(e0), file) && (e <= e0 ==> t.values[0] == 0)
    ensures var o := ReplayBatches(sh, Late(e0), e, n, t, Load(file)); o.Some? ==> LateValue(e0, e, o.value)
  {
    if n > 0 {
      LateBatches(sh, e0, e, n - 1, t, file);
      var o := ReplayBatches(sh, Late(e0), e, n - 1, t, Load(file));
      if o.Some? {
        LateBatch(sh, e0, e, n - 1, o.value, file);
      }
    }
  }

  lemma {:induction false} LateEpochs(sh: Shape, e0: nat, e: nat, t: Session, file: seq<Entry>)
    requires sh.accumulation >= 1 && |t.values| == |sh.paths| >= 1
    requires Truthful(sh, Late(e0), file) && t.values[0] == 0 && e <= e0
    ensures var o := Replay(sh, Late(e0), e, t, Load(file)); o.Some? ==> o.value.values[0] == 0
  {
    if e > 0 {
      LateEpochs(sh, e0, e - 1, t, file);
      var o := Replay(sh, Late(e0), e - 1, t, Load(file));
      if o.Some? {
        LateBatches(sh, e0, e - 1, sh.batches(e - 1), o.value, file);
      }
    }
  }

  function Zeros(n: nat): seq<Value> {
    seq(n, _ => 0)
  }

  /** An epoch that ends inside a window is flushed by the recording and not by the replay. */
  lemma FlushIsLost(sh: Shape, epochs: nat, e0: nat)
    requires sh.accumulation >= 1 && |sh.paths| >= 1
    requires e0 < epochs && !EndsWindow(sh, e0)
    ensures !Refines(sh, Late(e0), epochs, Zeros(|sh.paths|), None, [])
  {
    var r := Begin(Zeros(|sh.paths|), None, []);
    var file := Record(sh, Late(e0), epochs, r).file;
    RecordTruthful(sh, Late(e0), epochs, r);
    LostAt(sh, e0, r, file);
  }

  lemma LostAt(sh: Shape, e0: nat, r: Recording, file: seq<Entry>)
    requires sh.accumulation >= 1 && |sh.paths| >= 1 && !EndsWindow(sh, e0)
    requires |r.session.values| == |sh.paths| && r.session.values[0] == 0 && r.session.counter == 0 && !r.pending
    requires Truthful(sh, Late(e0), file)
    ensures !Reproduced(Record(sh, Late(e0), e0 + 1, r).session, Replay(sh, Late(e0), e0 + 1, r.session, Load(file)))
  {
    var m, o := Record(sh, Late(e0), e0, r), Replay(sh, Late(e0), e0, r.session, Load(file));
    if o.Some? {
      LateEpochs(sh, e0, e0, r.session, file);
      EpochsInStep(sh, Late(e0), e0, r, Load(file));
      LeftPending(sh, Late(e0), e0, r);
      LateBatches(sh, e0, e0, sh.batches(e0), o.value, file);
      FlushedEpoch(sh, e0, m, RecordBatches(sh, Late(e0), e0, sh.batches(e0), m), o.value, Load(file));
      ReplayUnfolds(sh, Late(e0), e0, r.session, o.value, Load(file));
    }
  }

  lemma LeftPending(sh: Shape, b: Behaviour, e: nat, r: Recording)
    requires sh.accumulation >= 1 && |r.session.values| == |sh.paths| && !EndsWindow(sh, e)
    requires r.session.counter == 0 && !r.pending && b.contributes(e, sh.batches(e) - 1)
    ensures RecordBatches(sh, b, e, sh.batches(e), Record(sh, b, e, r)).pending
  {
    hide RecordEpoch, Flush;
    EpochsCounted(sh, b, e, r);
    BatchesCounted(sh, b, e, sh.batches(e), Record(sh, b, e, r));
  }

  lemma ReplayUnfolds(sh: Shape, b: Behaviour, n: nat, s: Session, t: Session, entries: map<Key, Entry>)
    requires sh.accumulation >= 1 && |s.values| == |t.values| == |sh.paths|
    requires Replay(sh, b, n, s, entries) == Some(t)
    ensures Replay(sh, b, n + 1, s, entries) == ReplayEpoch(sh, b, n, t, entries)
  {
  }

  lemma FlushedEpoch(sh: Shape, e0: nat, m: Recording, n: Recording, t: Session, entries: map<Key, Entry>)
    requires sh.accumulation >= 1 && |m.session.values| == |t.values| == |sh.paths| >= 1
    requires n == RecordBatches(sh, Late(e0), e0, sh.batches(e0), m) && n.pending
    requires t.counter == m.session.counter
    requires var o := ReplayBatches(sh, Late(e0), e0, sh.batches(e0), t, entries);
      o.Some? ==> LateValue(e0, e0, o.value)
    ensures !Reproduced(RecordEpoch(sh, Late(e0), e0, m).session, ReplayEpoch(sh, Late(e0), e0, t, entries))
  {
    BatchesInStep(sh, Late(e0), e0, sh.batches(e0), m, t, entries);
    FlushedValues(sh, Late(e0), e0, m);
    ReplayedValues(sh, Late(e0), e0, t, entries);
    LateWrites(sh, e0, n.session.step);
  }

  lemma FlushedValues(sh: Shape, b: Behaviour, e: nat, m: Recording)
    requires sh.accumulation >= 1 && |m.session.values| == |sh.paths|
    requires RecordBatches(sh, b, e, sh.batches(e), m).pending
    ensures RecordEpoch(sh, b, e, m).session.values ==
            Written(sh, b, e, RecordBatches(sh, b, e, sh.batches(e), m).session.step)
  {
  }

  lemma ReplayedValues(sh: Shape, b: Behaviour, e: nat, t: Session, entries: map<Key, Entry>)
    requires sh.accumulation >= 1 && |t.values| == |sh.paths|
    ensures var o := ReplayEpoch(sh, b, e, t, entries);
            o.Some? ==> ReplayBatches(sh, b, e, sh.batches(e), t, entries).Some? &&
                        o.value.values == ReplayBatches(sh, b, e, sh.batches(e), t, entries).value.values
  {
  }

  lemma LateWrites(sh: Shape, e0: nat, step: nat)
    requires |sh.paths| >= 1
    ensures Written(sh, Late(e0), e0, step)[0] == 1 + step
  {
  }

  /** An optimizer that gives each parameter its own number. */
  function Marked(): Behaviour {
    Behaviour((e, n) => [], (e, n, v) => 0.0, (e, n) => true, (e, i, k) => k, (e, s) => s)
  }

  lemma {:induction false} RecordMarks(sh: Shape, e: nat, n: nat, r: Recording, f: nat)
    requires sh.accumulation >= 1 && |r.session.values| == |sh.paths| && f < |sh.paths|
    requires r.session.counter >= sh.accumulation ==> r.session.values[f] == f
    ensures var s := RecordBatches(sh, Marked(), e, n, r).session;
            s.counter >= sh.accumulation ==> s.values[f] == f
  {
    if n > 0 {
      RecordMarks(sh, e, n - 1, r, f);
      DueAtFirstWindow(RecordBatches(sh, Marked(), e, n - 1, r).session.counter, sh.accumulation);
    }
  }

  lemma DueAtFirstWindow(counter: nat, a: nat)
    requires a >= 1
    ensures counter < a <= counter + 1 ==> (counter + 1) % a == 0
  {
  }

  lemma {:induction false} EpochsMark(sh: Shape, n: nat, r: Recording, f: nat)
    requires sh.accumulation >= 1 && |r.session.values| == |sh.paths| && f < |sh.paths|
    requires r.session.counter == 0
    ensures var s := Record(sh, Marked(), n, r).session; s.counter >= sh.accumulation ==> s.values[f] == f
  {
    if n > 0 {
      EpochsMark(sh, n - 1, r, f);
      RecordMarks(sh, n - 1, sh.batches(n - 1), Record(sh, Marked(), n - 1, r), f);
    }
  }

  lemma {:induction false} ReplayMisses(sh: Shape, e: nat, n: nat, t: Session, file: seq<Entry>, f: nat, g: nat)
    requires sh.accumulation >= 1 && |t.values| == |sh.paths| && Truthful(sh, Marked(), file)
    requires f < g < |sh.paths| && IsFirst(sh.paths, f) && sh.paths[f] == sh.paths[g]
    requires t.counter >= sh.accumulation ==> t.values[f] > f
    ensures var o := ReplayBatches(sh, Marked(), e, n, t, Load(file));
            o.Some? && o.value.counter >= sh.accumulation ==> o.value.values[f] > f
  {
    if n > 0 {
      ReplayMisses(sh, e, n - 1, t, file, f, g);
      var o := ReplayBatches(sh, Marked(), e, n - 1, t, Load(file));
      if o.Some? {
        var k := KeyOf(sh, e, o.value.(window := o.value.window + Marked().inputs(e, n - 1)));
        DueAtFirstWindow(o.value.counter, sh.accumulation);
        if StepDue(sh, o.value) && k in Load(file) {
          LoadedFromFile(file, k);
          ByPathIsLast(sh.paths, Written(sh, Marked(), k.epoch, k.step), g);
        }
      }
    }
  }

  lemma {:induction false} EpochsMiss(sh: Shape, n: nat, t: Session, file: seq<Entry>, f: nat, g: nat)
    requires sh.accumulation >= 1 && |t.values| == |sh.paths| && Truthful(sh, Marked(), file)
    requires f < g < |sh.paths| && IsFirst(sh.paths, f) && sh.paths[f] == sh.paths[g]
    requires t.counter == 0
    ensures var o := Replay(sh, Marked(), n, t, Load(file));
            o.Some? && o.value.counter >= sh.accumulation ==> o.value.values[f] > f
  {
    if n > 0 {
      EpochsMiss(sh, n - 1, t, file, f, g);
      var o := Replay(sh, Marked(), n - 1, t, Load(file));
      if o.Some? {
        ReplayMisses(sh, n - 1, sh.batches(n - 1), o.value, file, f, g);
      }
    }
  }

  lemma {:induction false} WindowsAreWhole(sh: Shape, epochs: nat)
    requires sh.accumulation >= 1 && WindowsClose(sh, epochs)
    ensures BatchesUpTo(sh, epochs) % sh.accumulation == 0
  {
    if epochs > 0 {
      WindowsAreWhole(sh, epochs - 1);
      assert EndsWindow(sh, epochs - 1);
    }
  }

  lemma {:induction false} FirstCarrier(paths: seq<string>, i: nat) returns (f: nat)
    requires i < |paths|
    ensures f <= i && paths[f] == paths[i] && IsFirst(paths, f)
  {
    if IsFirst(paths, i) {
      f := i;
    } else {
      var j :| 0 <= j < i && paths[..i][j] == paths[i];
      f := FirstCarrier(paths, j);
    }
  }

  lemma WholeWindow(counter: nat, a: nat)
    requires a >= 1 && counter > 0 && counter % a == 0
    ensures counter >= a
  {
  }

  /** Two parameters with one path cannot both be replayed. */
  lemma SharedPathIsLost(sh: Shape, epochs: nat)
    requires sh.accumulation >= 1 && WindowsClose(sh, epochs)
    requires !Distinct(sh.paths) && BatchesUpTo(sh, epochs) > 0
    ensures !Refines(sh, Marked(), epochs, Zeros(|sh.paths|), None, [])
  {
    var i, g :| 0 <= i < g < |sh.paths| && sh.paths[i] == sh.paths[g];
    var f := FirstCarrier(sh.paths, i);
    var b, r := Marked(), Begin(Zeros(|sh.paths|), None, []);
    var file := Record(sh, b, epochs, r).file;
    RecordTruthful(sh, b, epochs, r);
    EpochsCounted(sh, b, epochs, r);
    WindowsAreWhole(sh, epochs);
    EpochsMark(sh, epochs, r, f);
    EpochsInStep(sh, b, epochs, r, Load(file));
    EpochsMiss(sh, epochs, r.session, file, f, g);
    var s, o := Record(sh, b, epochs, r).session, Replay(sh, b, epochs, r.session, Load(file));
    assert s.counter >= sh.accumulation by {
      WholeWindow(s.counter, sh.accumulation);
    }
    assert o.Some? ==> o.value.values[f] != s.values[f];
    assert !Reproduced(s, o);
  }

  ghost predicate AlwaysRefines(sh: Shape, epochs: nat)
    requires sh.accumulation >= 1
  {
    forall b: Behaviour, values: seq<Value>, sched: Option<int>, earlier: seq<Entry> :: |values| == |sh.paths| ==>
      Refines(sh, b, epochs, values, sched, earlier)
  }

  /** EXACT CONDITION. For a trainer with at least one parameter, replay reproduces the recording
      for every optimizer, loss, schedule and earlier file if and only if windows close with their
      epochs and paths are distinct. */
  lemma AlwaysRefinesIff(sh: Shape, epochs: nat)
    requires sh.accumulation >= 1 && |sh.paths| >= 1
    ensures AlwaysRefines(sh, epochs) <==> Replayable(sh, epochs)
  {
    if Replayable(sh, epochs) {
      forall b: Behaviour, values: seq<Value>, sched: Option<int>, earlier: seq<Entry> | |values| == |sh.paths|
        ensures Refines(sh, b, epochs, values, sched, earlier)
      {
        ReplayRefinesRecord(sh, b, epochs, values, sched, earlier);
      }
    } else if !WindowsClose(sh, epochs) {
      var e0: nat :| e0 < epochs && !EndsWindow(sh, e0);
      FlushIsLost(sh, epochs, e0);
    } else {
      SharedPathIsLost(sh, epochs);
    }
  }
}
