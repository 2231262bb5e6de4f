/** When a replay misses: what a step's key says, and what a fresh recording answers to. */
module ReplayKeys {
  import opened Options
  import opened TrainingCassette
  import opened TrainingReplay

  // ---- What a key says ------------------------------------------------------------------------

  /** The map holds these values under these paths, and nothing else. */
  ghost predicate Tells(m: map<string, Value>, paths: seq<string>, values: seq<Value>)
    requires |paths| == |values|
  {
    && (forall i :: 0 <= i < |paths| ==> paths[i] in m && m[paths[i]] == values[i])
    && (forall p :: p in m ==> p in paths)
  }

  /** The line was recorded at this epoch and step, on this window's inputs and from these values. */
  ghost predicate RecordedAt(line: Entry, e: nat, step: nat, window: seq<Value>, paths: seq<string>, values: seq<Value>)
    requires |paths| == |values|
  {
    line.key.epoch == e && line.key.step == step && line.key.inputs == window && Tells(line.key.params, paths, values)
  }

  lemma {:induction false} ByPathKeys(paths: seq<string>, values: seq<Value>)
    requires |paths| == |values|
    ensures forall p :: p in ByPath(paths, values) ==> p in paths
  {
    if |paths| > 0 {
      ByPathKeys(paths[..|paths| - 1], values[..|values| - 1]);
    }
  }

  lemma ByPathTells(paths: seq<string>, values: seq<Value>)
    requires |paths| == |values| && Distinct(paths)
    ensures Tells(ByPath(paths, values), paths, values)
  {
    ByPathKeys(paths, values);
    forall i | 0 <= i < |paths|
      ensures paths[i] in ByPath(paths, values) && ByPath(paths, values)[paths[i]] == values[i]
    {
      ByPathIsLast(paths, values, i);
    }
  }

  lemma TellsIsExact(m: map<string, Value>, m': map<string, Value>, paths: seq<string>, values: seq<Value>)
    requires |paths| == |values| && Tells(m, paths, values) && Tells(m', paths, values)
    ensures m == m'
  {
    forall p
      ensures p in m <==> p in m'
      ensures p in m ==> m[p] == m'[p]
    {
      if p in m || p in m' {
        var i :| 0 <= i < |paths| && paths[i] == p;
      }
    }
  }

  lemma TellsValues(m: map<string, Value>, paths: seq<string>, values: seq<Value>, values': seq<Value>)
    requires |paths| == |values| == |values'| && Tells(m, paths, values) && Tells(m, paths, values')
    ensures values == values'
  {
    forall i | 0 <= i < |paths|
      ensures values[i] == values'[i]
    {
      assert m[paths[i]] == values[i];
    }
  }

  lemma {:induction false} LoadHas(file: seq<Entry>, i: nat)
    requires i < |file|
    ensures file[i].key in Load(file)
  {
    if i < |file| - 1 {
      assert file[..|file| - 1][i] == file[i];
      LoadHas(file[..|file| - 1], i);
    }
  }

  /** The last line of the file with this key. */
  lemma {:induction false} LoadLast(file: seq<Entry>, k: Key) returns (i: nat)
    requires k in Load(file)
    ensures i < |file| && file[i].key == k && Load(file)[k] == file[i]
    ensures forall j :: i < j < |file| ==> file[j].key != k
  {
    var init := file[..|file| - 1];
    if file[|file| - 1].key == k {
      i := |file| - 1;
    } else {
      i := LoadLast(init, k);
      assert forall j :: i < j < |file| - 1 ==> file[j] == init[j];
    }
  }

  // ---- One batch of a replay ----------------------------------------------------------------------

  ghost predicate SomeLine(sh: Shape, file: seq<Entry>, e: nat, step: nat, window: seq<Value>, values: seq<Value>)
    requires |values| == |sh.paths|
  {
    exists i :: 0 <= i < |file| && RecordedAt(file[i], e, step, window, sh.paths, values)
  }

  lemma KeyOnFile(sh: Shape, file: seq<Entry>, k: Key, values: seq<Value>)
    requires |values| == |sh.paths| && Distinct(sh.paths) && k.params == ByPath(sh.paths, values)
    ensures k in Load(file) <==> SomeLine(sh, file, k.epoch, k.step, k.inputs, values)
    ensures forall i :: 0 <= i < |file| ==>
      (file[i].key == k <==> RecordedAt(file[i], k.epoch, k.step, k.inputs, sh.paths, values))
  {
    ByPathTells(sh.paths, values);
    forall i | 0 <= i < |file|
      ensures file[i].key == k <==> RecordedAt(file[i], k.epoch, k.step, k.inputs, sh.paths, values)
    {
      if RecordedAt(file[i], k.epoch, k.step, k.inputs, sh.paths, values) {
        TellsIsExact(file[i].key.params, k.params, sh.paths, values);
      }
    }
    if k in Load(file) {
      var i := LoadLast(file, k);
      assert RecordedAt(file[i], k.epoch, k.step, k.inputs, sh.paths, values);
    }
    if SomeLine(sh, file, k.epoch, k.step, k.inputs, values) {
      var i :| 0 <= i < |file| && RecordedAt(file[i], k.epoch, k.step, k.inputs, sh.paths, values);
      LoadHas(file, i);
    }
  }

  /** A step closes the window. */
  ghost predicate StepTaken(s: Session, s': Session) {
    s'.window == [] && s'.step == s.step + 1 && s'.counter == s.counter + 1
  }

  ghost predicate WindowGoesOn(s: Session, inputs: seq<Value>, s': Session) {
    s'.window == s.window + inputs && s'.step == s.step && s'.counter == s.counter + 1 && s'.values == s.values
  }

  /** What the line `x` left: its stored values, wherever it has one for a path. */
  ghost predicate Overwritten(paths: seq<string>, values: seq<Value>, x: Entry, after: seq<Value>)
    requires |paths| == |values|
  {
    |after| == |values| &&
    forall k :: 0 <= k < |paths| ==> after[k] == if paths[k] in x.post then x.post[paths[k]] else values[k]
  }

  /** A STEP IS FOUND exactly when the file holds a line recorded at that epoch and step, on that
      window's inputs and from exactly those parameter values; the last such line is what it shows. */
  lemma DueStepFoundIff(sh: Shape, b: Behaviour, e: nat, n: nat, s: Session, file: seq<Entry>)
    requires sh.accumulation >= 1 && |s.values| == |sh.paths| && Distinct(sh.paths)
    requires (s.counter + 1) % sh.accumulation == 0
    ensures var window := s.window + b.inputs(e, n);
            var o := ReplayBatch(sh, b, e, n, s, Load(file));
      && (o.Some? <==> SomeLine(sh, file, e, s.step, window, s.values))
      && (o.Some? ==> exists i ::
            && 0 <= i < |file| && RecordedAt(file[i], e, s.step, window, sh.paths, s.values)
            && (forall j :: i < j < |file| ==> !RecordedAt(file[j], e, s.step, window, sh.paths, s.values))
            && Overwritten(sh.paths, s.values, file[i], o.value.values))
      && (o.Some? ==> StepTaken(s, o.value))
  {
    var window := s.window + b.inputs(e, n);
    var k := Key(e, s.step, window, ByPath(sh.paths, s.values));
    KeyOnFile(sh, file, k, s.values);
    assert KeyOf(sh, e, s.(window := window)) == k;
    var o := ReplayBatch(sh, b, e, n, s, Load(file));
    if o.Some? {
      var i := LoadLast(file, k);
      assert RecordedAt(file[i], e, s.step, window, sh.paths, s.values);
      assert forall p :: 0 <= p < |sh.paths| ==> IsFirst(sh.paths, p);
      assert o.value.values == Restore(sh.paths, s.values, file[i].post);
      assert Overwritten(sh.paths, s.values, file[i], o.value.values);
    }
  }

  /** Between steps a replay needs no line; the window goes on. */
  lemma OtherBatchesPass(sh: Shape, b: Behaviour, e: nat, n: nat, s: Session, file: seq<Entry>)
    requires sh.accumulation >= 1 && |s.values| == |sh.paths|
    requires (s.counter + 1) % sh.accumulation != 0
    ensures var o := ReplayBatch(sh, b, e, n, s, Load(file)); o.Some? && WindowGoesOn(s, b.inputs(e, n), o.value)
  {
  }

  /** A STEP IS RECORDED as one line: where it was taken, on what and from what, and what it left. */
  lemma DueStepRecorded(sh: Shape, b: Behaviour, e: nat, n: nat, r: Recording)
    requires sh.accumulation >= 1 && |r.session.values| == |sh.paths| && Distinct(sh.paths)
    requires (r.session.counter + 1) % sh.accumulation == 0
    ensures var s, r' := r.session, RecordBatch(sh, b, e, n, r);
      && |r'.file| == |r.file| + 1 && r'.file[..|r.file|] == r.file
      && RecordedAt(r'.file[|r.file|], e, s.step, s.window + b.inputs(e, n), sh.paths, s.values)
      && Tells(r'.file[|r.file|].post, sh.paths, r'.session.values)
      && r'.file[|r.file|].lr == s.sched
      && StepTaken(s, r'.session) && !r'.pending
  {
    ByPathTells(sh.paths, r.session.values);
    ByPathTells(sh.paths, Written(sh, b, e, r.session.step));
  }

  lemma OtherBatchesRecorded(sh: Shape, b: Behaviour, e: nat, n: nat, r: Recording)
    requires sh.accumulation >= 1 && |r.session.values| == |sh.paths|
    requires (r.session.counter + 1) % sh.accumulation != 0
    ensures var r' := RecordBatch(sh, b, e, n, r);
      r'.file == r.file && WindowGoesOn(r.session, b.inputs(e, n), r'.session) && r'.pending == b.contributes(e, n)
  {
  }

  // ---- The first step of a run -------------------------------------------------------------------------

  /** The inputs of the first `n` batches of an epoch. */
  function WindowInputs(b: Behaviour, e: nat, n: nat): seq<Value> {
    if n == 0 then [] else WindowInputs(b, e, n - 1) + b.inputs(e, n - 1)
  }

  /** Epoch `e0` is the first with batches, and has a whole window of them. */
  ghost predicate StartsIn(sh: Shape, e0: nat) {
    sh.accumulation >= 1 && sh.batches(e0) >= sh.accumulation && forall e: nat :: e < e0 ==> sh.batches(e) == 0
  }

  /** No step was taken: the values are those at the start. */
  ghost predicate Untouched(s: Session, values: seq<Value>, n: nat) {
    s.values == values && s.counter == n
  }

  ghost predicate InFirstWindow(s: Session, b: Behaviour, e: nat, values: seq<Value>, n: nat) {
    Untouched(s, values, n) && s.step == 0 && s.window == WindowInputs(b, e, n)
  }

  lemma EmptyEpochs(sh: Shape, b: Behaviour, e: nat, values: seq<Value>, r: Recording, t: Session,
                    entries: map<Key, Entry>)
    requires sh.accumulation >= 1 && |values| == |sh.paths| && sh.batches(e) == 0
    ensures Untouched(r.session, values, 0) && !r.pending && r.file == [] ==>
      var r' := RecordEpoch(sh, b, e, r); Untouched(r'.session, values, 0) && !r'.pending && r'.file == []
    ensures Untouched(t, values, 0) ==>
      var o := ReplayEpoch(sh, b, e, t, entries); o.Some? && Untouched(o.value, values, 0)
  {
  }

  lemma {:induction false} RecordsNothingYet(sh: Shape, b: Behaviour, e: nat, values: seq<Value>, sched: Option<int>)
    requires sh.accumulation >= 1 && |values| == |sh.paths| && forall d: nat :: d < e ==> sh.batches(d) == 0
    ensures var r := Record(sh, b, e, Begin(values, sched, []));
      Untouched(r.session, values, 0) && !r.pending && r.file == []
  {
    hide RecordEpoch, ReplayEpoch;
    if e > 0 {
      RecordsNothingYet(sh, b, e - 1, values, sched);
      var m := Record(sh, b, e - 1, Begin(values, sched, []));
      EmptyEpochs(sh, b, e - 1, values, m, m.session, map[]);
    }
  }

  lemma {:induction false} ReplaysNothingYet(sh: Shape, b: Behaviour, e: nat, values: seq<Value>, sched: Option<int>,
                                             entries: map<Key, Entry>)
    requires sh.accumulation >= 1 && |values| == |sh.paths| && forall d: nat :: d < e ==> sh.batches(d) == 0
    ensures var o := Replay(sh, b, e, Start(values, sched), entries); o.Some? && Untouched(o.value, values, 0)
  {
    hide RecordEpoch, ReplayEpoch;
    if e > 0 {
      ReplaysNothingYet(sh, b, e - 1, values, sched, entries);
      var t := Replay(sh, b, e - 1, Start(values, sched), entries).value;
      EmptyEpochs(sh, b, e - 1, values, Begin(values, sched, []), t, entries);
    }
  }

  lemma NotYetDue(n: nat, a: nat)
    requires n + 1 < a
    ensures (n + 1) % a != 0
  {
  }

  lemma OneMoreBatch(sh: Shape, b: Behaviour, e: nat, n: nat, values: seq<Value>, r: Recording, t: Session,
                     entries: map<Key, Entry>)
    requires |values| == |sh.paths| && n + 1 < sh.accumulation
    ensures InFirstWindow(r.session, b, e, values, n) && r.file == [] ==>
      var r' := RecordBatch(sh, b, e, n, r); InFirstWindow(r'.session, b, e, values, n + 1) && r'.file == []
    ensures InFirstWindow(t, b, e, values, n) ==>
      var o := ReplayBatch(sh, b, e, n, t, entries); o.Some? && InFirstWindow(o.value, b, e, values, n + 1)
  {
    NotYetDue(n, sh.accumulation);
  }

  lemma {:induction false} RecordsFirstWindow(sh: Shape, b: Behaviour, e: nat, n: nat, values: seq<Value>, r: Recording)
    requires |values| == |sh.paths| && n < sh.accumulation && Untouched(r.session, values, 0) && r.file == []
    ensures var r' := RecordBatches(sh, b, e, n, r); InFirstWindow(r'.session, b, e, values, n) && r'.file == []
  {
    if n > 0 {
      hide RecordBatch, ReplayBatch;
      RecordsFirstWindow(sh, b, e, n - 1, values, r);
      var m := RecordBatches(sh, b, e, n - 1, r);
      OneMoreBatch(sh, b, e, n - 1, values, m, m.session, map[]);
    }
  }

  lemma {:induction false} ReplaysFirstWindow(sh: Shape, b: Behaviour, e: nat, n: nat, values: seq<Value>, t: Session,
                                              entries: map<Key, Entry>)
    requires |values| == |sh.paths| && n < sh.accumulation && Untouched(t, values, 0)
    ensures var o := ReplayBatches(sh, b, e, n, t, entries); o.Some? && InFirstWindow(o.value, b, e, values, n)
  {
    if n > 0 {
      hide RecordBatch, ReplayBatch;
      ReplaysFirstWindow(sh, b, e, n - 1, values, t, entries);
      var m := ReplayBatches(sh, b, e, n - 1, t, entries).value;
      OneMoreBatch(sh, b, e, n - 1, values, Begin(values, None, []), m, entries);
    }
  }

  // ---- Fresh recordings ------------------------------------------------------------------------------

  /** The first line of a fresh recording. */
  lemma FirstLine(sh: Shape, b: Behaviour, e0: nat, epochs: nat, values: seq<Value>, sched: Option<int>)
    requires StartsIn(sh, e0) && e0 < epochs && |values| == |sh.paths| && Distinct(sh.paths)
    ensures var file := Record(sh, b, epochs, Begin(values, sched, [])).file;
      |file| >= 1 && RecordedAt(file[0], e0, 0, WindowInputs(b, e0, sh.accumulation), sh.paths, values)
  {
    hide RecordBatch, RecordEpoch, ReplayEpoch, ReplayBatch, RecordBatches, Record;
    var a, begin := sh.accumulation, Begin(values, sched, []);
    RecordsNothingYet(sh, b, e0, values, sched);
    var r := Record(sh, b, e0, begin);
    RecordsFirstWindow(sh, b, e0, a - 1, values, r);
    var m := RecordBatches(sh, b, e0, a - 1, r);
    assert a % a == 0;
    DueStepRecorded(sh, b, e0, a - 1, m);
    FirstLineStays(sh, b, e0, epochs, begin, r, m, RecordBatch(sh, b, e0, a - 1, m));
  }

  lemma FirstLineStays(sh: Shape, b: Behaviour, e0: nat, epochs: nat, begin: Recording, r: Recording, m: Recording,
                       m': Recording)
    requires StartsIn(sh, e0) && e0 < epochs && |begin.session.values| == |r.session.values| == |sh.paths|
    requires |m.session.values| == |m'.session.values| == |sh.paths| && r == Record(sh, b, e0, begin)
    requires m == RecordBatches(sh, b, e0, sh.accumulation - 1, r)
    requires m' == RecordBatch(sh, b, e0, sh.accumulation - 1, m)
    ensures Extends(Record(sh, b, epochs, begin).file, m'.file)
  {
    hide RecordBatch, RecordEpoch, RecordBatches, Record, Extends;
    var a, n, next := sh.accumulation, sh.batches(e0), RecordEpoch(sh, b, e0, r);
    NextBatch(sh, b, e0, a, r, m, m');
    NextEpoch(sh, b, e0, begin, r);
    LaterBatchesGrow(sh, b, e0, a, n, r);
    EpochAfterBatches(sh, b, e0, r);
    RecordGrows(sh, b, e0 + 1, epochs, begin);
    ExtendsOn(next.file, RecordBatches(sh, b, e0, n, r).file, m'.file);
    ExtendsOn(Record(sh, b, epochs, begin).file, next.file, m'.file);
  }

  lemma NextBatch(sh: Shape, b: Behaviour, e: nat, n: nat, r: Recording, m: Recording, m': Recording)
    requires sh.accumulation >= 1 && n >= 1 && |r.session.values| == |m.session.values| == |sh.paths|
    requires m == RecordBatches(sh, b, e, n - 1, r) && m' == RecordBatch(sh, b, e, n - 1, m)
    ensures RecordBatches(sh, b, e, n, r) == m'
  {
    hide RecordBatch;
  }

  lemma NextEpoch(sh: Shape, b: Behaviour, e: nat, begin: Recording, r: Recording)
    requires sh.accumulation >= 1 && |begin.session.values| == |r.session.values| == |sh.paths|
    requires r == Record(sh, b, e, begin)
    ensures Record(sh, b, e + 1, begin) == RecordEpoch(sh, b, e, r)
  {
    hide RecordEpoch;
  }

  lemma ExtendsOn(a: seq<Entry>, b: seq<Entry>, c: seq<Entry>)
    requires Extends(a, b) && Extends(b, c)
    ensures Extends(a, c)
  {
  }

  lemma EpochAfterBatches(sh: Shape, b: Behaviour, e: nat, r: Recording)
    requires sh.accumulation >= 1 && |r.session.values| == |sh.paths|
    ensures Extends(RecordEpoch(sh, b, e, r).file, RecordBatches(sh, b, e, sh.batches(e), r).file)
  {
  }

  lemma BatchGrows(sh: Shape, b: Behaviour, e: nat, n: nat, r: Recording)
    requires sh.accumulation >= 1 && |r.session.values| == |sh.paths|
    ensures Extends(RecordBatch(sh, b, e, n, r).file, r.file)
  {
  }

  lemma {:induction false} LaterBatchesGrow(sh: Shape, b: Behaviour, e: nat, n: nat, k: nat, r: Recording)
    requires sh.accumulation >= 1 && |r.session.values| == |sh.paths| && n <= k
    ensures Extends(RecordBatches(sh, b, e, k, r).file, RecordBatches(sh, b, e, n, r).file)
  {
    hide RecordBatch;
    if n < k {
      LaterBatchesGrow(sh, b, e, n, k - 1, r);
      BatchGrows(sh, b, e, k - 1, RecordBatches(sh, b, e, k - 1, r));
    }
  }

  /** Only the first line is of the first step. */
  lemma OneLineEach(sh: Shape, b: Behaviour, e0: nat, epochs: nat, values: seq<Value>, sched: Option<int>,
                    window: seq<Value>, values': seq<Value>)
    requires StartsIn(sh, e0) && e0 < epochs && |values| == |values'| == |sh.paths| && Distinct(sh.paths)
    ensures var file := Record(sh, b, epochs, Begin(values, sched, [])).file;
      SomeLine(sh, file, e0, 0, window, values') <==>
      values' == values && window == WindowInputs(b, e0, sh.accumulation)
  {
    hide RecordEpoch, Record;
    var begin := Begin(values, sched, []);
    var file := Record(sh, b, epochs, begin).file;
    FirstLine(sh, b, e0, epochs, values, sched);
    RecordStamped(sh, b, epochs, begin);
    assert forall j :: 0 < j < |file| ==> Before(file[0].key, file[j].key.epoch, file[j].key.step);
    if SomeLine(sh, file, e0, 0, window, values') {
      var i :| 0 <= i < |file| && RecordedAt(file[i], e0, 0, window, sh.paths, values');
      assert i == 0;
      TellsValues(file[0].key.params, sh.paths, values, values');
    }
  }

  /** THE FIRST STEP OF A REPLAY against a fresh recording is found if and only if it starts from the
      recording's values and its first window has the recording's inputs. */
  lemma FirstStepFoundIff(sh: Shape, b: Behaviour, b': Behaviour, e0: nat, epochs: nat, values: seq<Value>,
                          values': seq<Value>, sched: Option<int>, sched': Option<int>)
    requires StartsIn(sh, e0) && e0 < epochs && |values| == |values'| == |sh.paths| && Distinct(sh.paths)
    ensures var entries := Load(Record(sh, b, epochs, Begin(values, sched, [])).file);
            var t := Replay(sh, b', e0, Start(values', sched'), entries);
      t.Some? && |t.value.values| == |sh.paths| &&
      (ReplayBatches(sh, b', e0, sh.accumulation, t.value, entries).Some? <==>
         values' == values && WindowInputs(b', e0, sh.accumulation) == WindowInputs(b, e0, sh.accumulation))
  {
    hide Record, RecordEpoch, ReplayEpoch, ReplayBatch, RecordBatch, Replay, Load;
    var a, file := sh.accumulation, Record(sh, b, epochs, Begin(values, sched, [])).file;
    ReplaysNothingYet(sh, b', e0, values', sched', Load(file));
    var t := Replay(sh, b', e0, Start(values', sched'), Load(file)).value;
    ReplaysFirstWindow(sh, b', e0, a - 1, values', t, Load(file));
    var m := ReplayBatches(sh, b', e0, a - 1, t, Load(file)).value;
    assert a % a == 0;
    DueStepFoundIff(sh, b', e0, a - 1, m, file);
    OneLineEach(sh, b, e0, epochs, values, sched, WindowInputs(b', e0, a), values');
  }

  lemma {:induction false} BatchesStayLost(sh: Shape, b: Behaviour, e: nat, n: nat, k: nat, t: Session,
                                           entries: map<Key, Entry>)
    requires sh.accumulation >= 1 && |t.values| == |sh.paths| && n <= k && ReplayBatches(sh, b, e, n, t, entries).None?
    ensures ReplayBatches(sh, b, e, k, t, entries).None?
  {
    hide ReplayBatch;
    if n < k {
      BatchesStayLost(sh, b, e, n, k - 1, t, entries);
    }
  }

  lemma {:induction false} EpochsStayLost(sh: Shape, b: Behaviour, n: nat, k: nat, t: Session, entries: map<Key, Entry>)
    requires sh.accumulation >= 1 && |t.values| == |sh.paths| && n <= k && Replay(sh, b, n, t, entries).None?
    ensures Replay(sh, b, k, t, entries).None?
  {
    hide ReplayEpoch;
    if n < k {
      EpochsStayLost(sh, b, n, k - 1, t, entries);
    }
  }

  /** OTHER RUNS MISS: replaying a fresh recording from other values, or with other inputs in the first
      window, raises instead of overwriting the parameters. */
  lemma OtherRunsMiss(sh: Shape, b: Behaviour, b': Behaviour, e0: nat, epochs: nat, values: seq<Value>,
                      values': seq<Value>, sched: Option<int>, sched': Option<int>)
    requires StartsIn(sh, e0) && e0 < epochs && |values| == |values'| == |sh.paths| && Distinct(sh.paths)
    requires values' != values || WindowInputs(b', e0, sh.accumulation) != WindowInputs(b, e0, sh.accumulation)
    ensures var entries := Load(Record(sh, b, epochs, Begin(values, sched, [])).file);
            Replay(sh, b', epochs, Start(values', sched'), entries).None?
  {
    hide Record, ReplayBatches, Load;
    FirstStepFoundIff(sh, b, b', e0, epochs, values, values', sched, sched');
    var entries := Load(Record(sh, b, epochs, Begin(values, sched, [])).file);
    var t := Replay(sh, b', e0, Start(values', sched'), entries).value;
    BatchesStayLost(sh, b', e0, sh.accumulation, sh.batches(e0), t, entries);
    assert Replay(sh, b', e0 + 1, Start(values', sched'), entries).None?;
    EpochsStayLost(sh, b', e0 + 1, epochs, Start(values', sched'), entries);
  }
}
