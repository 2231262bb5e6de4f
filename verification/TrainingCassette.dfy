/** Training runs on a cassette: one epoch loop that either runs the optimizer and appends a line
    per optimizer step, or replays the lines of an earlier run. */
module TrainingCassette {
  import opened Options

  type Value = int

  /** The hash segments stand for what they hash: SHA-256 is taken as injective. The agent's own
      hash is left out because training changes nothing of the agent but the parameters. */
  datatype Key = Key(epoch: nat, step: nat, inputs: seq<Value>, params: map<string, Value>)

  datatype Entry = Entry(key: Key, meanLoss: real, samples: nat, post: map<string, Value>, lr: Option<int>)

  // ---- The cassette file -----------------------------------------------------------

  /** `_load`: the last line written under a key wins. */
  function Load(file: seq<Entry>): map<Key, Entry> {
    if |file| == 0 then map[]
    else Load(file[..|file| - 1])[file[|file| - 1].key := file[|file| - 1]]
  }

  lemma {:induction false} LoadIsLastLine(file: seq<Entry>, i: nat)
    requires i < |file|
    requires forall j :: i < j < |file| ==> file[j].key != file[i].key
    ensures file[i].key in Load(file) && Load(file)[file[i].key] == file[i]
  {
    if i < |file| - 1 {
      assert file[|file| - 1].key != file[i].key;
      LoadIsLastLine(file[..|file| - 1], i);
    }
  }

  lemma {:induction false} LoadedFromFile(file: seq<Entry>, k: Key)
    requires k in Load(file)
    ensures exists i :: 0 <= i < |file| && file[i].key == k && Load(file)[k] == file[i]
  {
    var last := file[|file| - 1];
    if last.key == k {
      assert file[|file| - 1].key == k;
    } else {
      LoadedFromFile(file[..|file| - 1], k);
      var i :| 0 <= i < |file| - 1 && file[i].key == k && Load(file[..|file| - 1])[k] == file[i];
      assert file[i].key == k;
    }
  }

  // ---- Parameter values by path ------------------------------------------------------

  /** `{p.path: p.value for p in params}`: of two parameters with one path the later one wins. */
  function ByPath(paths: seq<string>, values: seq<Value>): map<string, Value>
    requires |paths| == |values|
  {
    if |paths| == 0 then map[]
    else ByPath(paths[..|paths| - 1], values[..|values| - 1])[paths[|paths| - 1] := values[|values| - 1]]
  }

  ghost predicate Distinct(paths: seq<string>) {
    forall i, j :: 0 <= i < j < |paths| ==> paths[i] != paths[j]
  }

  predicate IsFirst(paths: seq<string>, i: nat)
    requires i < |paths|
  {
    paths[i] !in paths[..i]
  }

  /** Writing a stored map back: each path reaches the first parameter that carries it. */
  function Restore(paths: seq<string>, values: seq<Value>, post: map<string, Value>): (r: seq<Value>)
    requires |paths| == |values|
    ensures |r| == |values|
  {
    seq(|values|, i requires 0 <= i < |values| =>
      if IsFirst(paths, i) && paths[i] in post then post[paths[i]] else values[i])
  }

  lemma {:induction false} ByPathIsLast(paths: seq<string>, values: seq<Value>, i: nat)
    requires |paths| == |values| && i < |paths|
    ensures paths[i] in ByPath(paths, values)
    ensures exists j :: i <= j < |paths| && paths[j] == paths[i] && ByPath(paths, values)[paths[i]] == values[j] &&
                        forall k :: j < k < |paths| ==> paths[k] != paths[i]
  {
    var n := |paths| - 1;
    if paths[n] == paths[i] {
      assert ByPath(paths, values)[paths[i]] == values[n];
    } else {
      ByPathIsLast(paths[..n], values[..n], i);
      var j :| i <= j < n && paths[..n][j] == paths[..n][i] &&
        ByPath(paths[..n], values[..n])[paths[i]] == values[..n][j] &&
        forall k :: j < k < n ==> paths[..n][k] != paths[..n][i];
      assert forall k :: j < k < |paths| ==> k == n || paths[k] == paths[..n][k];
      assert ByPath(paths, values)[paths[i]] == values[j];
    }
  }

  lemma RestoreDistinct(paths: seq<string>, current: seq<Value>, values: seq<Value>)
    requires |paths| == |current| == |values| && Distinct(paths)
    ensures Restore(paths, current, ByPath(paths, values)) == values
  {
    forall i | 0 <= i < |paths|
      ensures Restore(paths, current, ByPath(paths, values))[i] == values[i]
    {
      ByPathIsLast(paths, values, i);
    }
  }

  ghost predicate RestoresAlways(paths: seq<string>) {
    forall current: seq<Value>, values: seq<Value> :: |current| == |values| == |paths| ==>
      Restore(paths, current, ByPath(paths, values)) == values
  }

  /** Storing by path and writing back is the identity exactly when no two parameters share a path. */
  lemma RestoreIffDistinct(paths: seq<string>)
    ensures RestoresAlways(paths) <==> Distinct(paths)
  {
    if Distinct(paths) {
      forall current: seq<Value>, values: seq<Value> | |current| == |values| == |paths|
        ensures Restore(paths, current, ByPath(paths, values)) == values
      {
        RestoreDistinct(paths, current, values);
      }
    } else {
      var i, j :| 0 <= i < j < |paths| && paths[i] == paths[j];
      var zeros, ones := seq(|paths|, _ => 0), seq(|paths|, _ => 1);
      assert Restore(paths, zeros, ByPath(paths, ones))[j] == 0;
      assert ones[j] == 1;
    }
  }

  // ---- The training loop --------------------------------------------------------------

  /** What the loop is run on: the parameters' paths, the accumulation length, and how many batches
      each epoch has. */
  datatype Shape = Shape(paths: seq<string>, accumulation: nat, batches: nat -> nat)

  /** What the loop cannot see into. `written(e, i, k)` is the value of parameter `k` after the
      `i`-th optimizer step of epoch `e`: each pair occurs once in a run, so every optimizer, with
      any state and gradients, is covered. `loss` is asked again on replay and therefore depends on
      the values only through its arguments. */
  datatype Behaviour = Behaviour(
    inputs: (nat, nat) -> seq<Value>,
    loss: (nat, nat, seq<Value>) -> real,
    contributes: (nat, nat) -> bool,
    written: (nat, nat, nat) -> Value,
    tick: (nat, int) -> int)

  datatype Seen =
    | BatchEnd(values: seq<Value>, loss: real)
    | EpochEnd(values: seq<Value>, trainLoss: real, sched: Option<int>)

  datatype Session = Session(
    values: seq<Value>, sched: Option<int>, counter: nat, step: nat, window: seq<Value>,
    lossSum: real, samples: nat, trace: seq<Seen>)

  function Start(values: seq<Value>, sched: Option<int>): Session {
    Session(values, sched, 0, 0, [], 0.0, 0, [])
  }

  function OpenEpoch(s: Session): Session {
    s.(step := 0, window := [], lossSum := 0.0, samples := 0)
  }

  predicate StepDue(sh: Shape, s: Session)
    requires sh.accumulation >= 1
  {
    (s.counter + 1) % sh.accumulation == 0
  }

  /** A batch that is run: forward and loss, no optimizer step. */
  function RunBatch(b: Behaviour, e: nat, n: nat, s: Session): Session {
    var loss := b.loss(e, n, s.values);
    s.(counter := s.counter + 1, window := s.window + b.inputs(e, n),
       lossSum := s.lossSum + loss * |b.inputs(e, n)| as real, samples := s.samples + |b.inputs(e, n)|)
  }

  function Seeing(s: Session, loss: real): Session {
    s.(trace := s.trace + [BatchEnd(s.values, loss)])
  }

  function Written(sh: Shape, b: Behaviour, e: nat, i: nat): (vs: seq<Value>)
    ensures |vs| == |sh.paths|
  {
    seq(|sh.paths|, k requires 0 <= k < |sh.paths| => b.written(e, i, k))
  }

  function KeyOf(sh: Shape, e: nat, s: Session): Key
    requires |s.values| == |sh.paths|
  {
    Key(e, s.step, s.window, ByPath(sh.paths, s.values))
  }

  /** `optimizer.step()`. */
  function Stepped(sh: Shape, b: Behaviour, e: nat, s: Session): Session {
    s.(values := Written(sh, b, e, s.step))
  }

  function Line(sh: Shape, b: Behaviour, e: nat, s: Session, loss: real, samples: nat): Entry
    requires |s.values| == |sh.paths|
  {
    Entry(KeyOf(sh, e, s), loss, samples, ByPath(sh.paths, Written(sh, b, e, s.step)), s.sched)
  }

  /** The line of an optimizer step taken at batch `n`. */
  function StepLine(sh: Shape, b: Behaviour, e: nat, n: nat, s: Session): Entry
    requires |s.values| == |sh.paths|
  {
    Line(sh, b, e, RunBatch(b, e, n, s), b.loss(e, n, s.values), |b.inputs(e, n)|)
  }

  /** `pending`: some parameter holds a gradient. Only a recording asks; a replay neither steps the
      optimizer nor flushes. */
  datatype Recording = Recording(session: Session, pending: bool, file: seq<Entry>)

  function Begin(values: seq<Value>, sched: Option<int>, earlier: seq<Entry>): Recording {
    Recording(Start(values, sched), false, earlier)
  }

  function RecordBatch(sh: Shape, b: Behaviour, e: nat, n: nat, r: Recording): (r': Recording)
    requires sh.accumulation >= 1 && |r.session.values| == |sh.paths|
    ensures |r'.session.values| == |sh.paths|
  {
    var loss := b.loss(e, n, r.session.values);
    var ran := RunBatch(b, e, n, r.session);
    if StepDue(sh, r.session) then
      Recording(Seeing(Stepped(sh, b, e, ran).(window := [], step := ran.step + 1), loss), false,
                r.file + [StepLine(sh, b, e, n, r.session)])
    else
      Recording(Seeing(ran, loss), b.contributes(e, n), r.file)
  }

  /** The residual flush: gradients left over from an unfinished window are stepped on. */
  function Flush(sh: Shape, b: Behaviour, e: nat, r: Recording): (r': Recording)
    requires |r.session.values| == |sh.paths|
    ensures |r'.session.values| == |sh.paths|
  {
    if !r.pending then r
    else
      Recording(Stepped(sh, b, e, r.session), false, r.file + [Line(sh, b, e, r.session, 0.0, |r.session.window|)])
  }

  function MeanLoss(s: Session): real {
    if s.samples > 0 then s.lossSum / s.samples as real else 0.0
  }

  function CloseEpoch(b: Behaviour, e: nat, s: Session): Session {
    var sched := if s.sched.Some? then Some(b.tick(e, s.sched.value)) else None;
    s.(sched := sched, trace := s.trace + [EpochEnd(s.values, MeanLoss(s), sched)])
  }

  function RecordBatches(sh: Shape, b: Behaviour, e: nat, n: nat, r: Recording): (r': Recording)
    requires sh.accumulation >= 1 && |r.session.values| == |sh.paths|
    ensures |r'.session.values| == |sh.paths|
  {
    if n == 0 then r.(session := OpenEpoch(r.session))
    else RecordBatch(sh, b, e, n - 1, RecordBatches(sh, b, e, n - 1, r))
  }

  function RecordEpoch(sh: Shape, b: Behaviour, e: nat, r: Recording): (r': Recording)
    requires sh.accumulation >= 1 && |r.session.values| == |sh.paths|
    ensures |r'.session.values| == |sh.paths|
  {
    var f := Flush(sh, b, e, RecordBatches(sh, b, e, sh.batches(e), r));
    f.(session := CloseEpoch(b, e, f.session))
  }

  function Record(sh: Shape, b: Behaviour, epochs: nat, r: Recording): (r': Recording)
    requires sh.accumulation >= 1 && |r.session.values| == |sh.paths|
    ensures |r'.session.values| == |sh.paths|
  {
    if epochs == 0 then r else RecordEpoch(sh, b, epochs - 1, Record(sh, b, epochs - 1, r))
  }

  /** `None`: a step's key is not on the cassette. */
  function ReplayBatch(sh: Shape, b: Behaviour, e: nat, n: nat, s: Session, entries: map<Key,
                       Entry>): (o: Option<Session>)
    requires sh.accumulation >= 1 && |s.values| == |sh.paths|
    ensures o.Some? ==> |o.value.values| == |sh.paths|
  {
    if StepDue(sh, s) then
      var window := s.window + b.inputs(e, n);
      var k := KeyOf(sh, e, s.(window := window));
      if k !in entries then None
      else
        var x := entries[k];
        Some(Seeing(
               s.(counter := s.counter + 1, window := [], step := s.step + 1,
                  values := Restore(sh.paths, s.values, x.post),
                  sched := if x.lr.Some? && s.sched.Some? then x.lr else s.sched,
                  lossSum := s.lossSum + x.meanLoss * x.samples as real, samples := s.samples + x.samples),
               x.meanLoss))
    else
      Some(Seeing(RunBatch(b, e, n, s), b.loss(e, n, s.values)))
  }

  function ReplayBatches(sh: Shape, b: Behaviour, e: nat, n: nat, s: Session, entries: map<Key,
                         Entry>): (o: Option<Session>)
    requires sh.accumulation >= 1 && |s.values| == |sh.paths|
    ensures o.Some? ==> |o.value.values| == |sh.paths|
  {
    if n == 0 then Some(OpenEpoch(s))
    else
      var before := ReplayBatches(sh, b, e, n - 1, s, entries);
      if before.None? then None else ReplayBatch(sh, b, e, n - 1, before.value, entries)
  }

  function ReplayEpoch(sh: Shape, b: Behaviour, e: nat, s: Session, entries: map<Key, Entry>): (o: Option<Session>)
    requires sh.accumulation >= 1 && |s.values| == |sh.paths|
    ensures o.Some? ==> |o.value.values| == |sh.paths|
  {
    var done := ReplayBatches(sh, b, e, sh.batches(e), s, entries);
    if done.None? then None else Some(CloseEpoch(b, e, done.value))
  }

  function Replay(sh: Shape, b: Behaviour, epochs: nat, s: Session, entries: map<Key, Entry>): (o: Option<Session>)
    requires sh.accumulation >= 1 && |s.values| == |sh.paths|
    ensures o.Some? ==> |o.value.values| == |sh.paths|
  {
    if epochs == 0 then Some(s)
    else
      var before := Replay(sh, b, epochs - 1, s, entries);
      if before.None? then None else ReplayEpoch(sh, b, epochs - 1, before.value, entries)
  }
}
