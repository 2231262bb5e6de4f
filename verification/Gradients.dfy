/** Textual gradients over an accumulation window. */
module Gradients {
  import opened Options

  datatype Gradient = Gradient(
    message: string,
    byField: map<string, string>,
    severity: real,
    targetPaths: seq<string>)

  const SEPARATOR: string := "\n---\n"

  const NULL_GRADIENT: Gradient := Gradient("", map[], 0.0, [])

  // ---- The merged gradient, part by part ---------------------------------------

  /** `SEPARATOR.join(parts)`. */
  function Join(parts: seq<string>): string {
    if |parts| == 0 then ""
    else if |parts| == 1 then parts[0]
    else parts[0] + SEPARATOR + Join(parts[1..])
  }

  function Messages(gs: seq<Gradient>): seq<string> {
    if |gs| == 0 then []
    else Messages(gs[..|gs| - 1]) + (if gs[|gs| - 1].message != "" then [gs[|gs| - 1].message] else [])
  }

  function Values(gs: seq<Gradient>, k: string): seq<string> {
    if |gs| == 0 then []
    else Values(gs[..|gs| - 1], k) + (if k in gs[|gs| - 1].byField then [gs[|gs| - 1].byField[k]] else [])
  }

  function FieldNames(gs: seq<Gradient>): set<string> {
    if |gs| == 0 then {} else FieldNames(gs[..|gs| - 1]) + gs[|gs| - 1].byField.Keys
  }

  function Paths(gs: seq<Gradient>): seq<string> {
    if |gs| == 0 then [] else Paths(gs[..|gs| - 1]) + gs[|gs| - 1].targetPaths
  }

  /** The first occurrence of every element, in order. */
  function Dedup(s: seq<string>): seq<string> {
    if |s| == 0 then []
    else
      var init, last := s[..|s| - 1], s[|s| - 1];
      if last in init then Dedup(init) else Dedup(init) + [last]
  }

  function Worst(gs: seq<Gradient>): real
    requires |gs| >= 1
  {
    if |gs| == 1 then gs[0].severity
    else
      var w, last := Worst(gs[..|gs| - 1]), gs[|gs| - 1].severity;
      if last > w then last else w
  }

  function Folded(gs: seq<Gradient>): Gradient
    requires |gs| >= 1
  {
    Gradient(Join(Messages(gs)), map k | k in FieldNames(gs) :: Join(Values(gs, k)), Worst(gs), Dedup(Paths(gs)))
  }

  /** One gradient is passed through as it is; more are folded. */
  function Merged(gs: seq<Gradient>): Gradient {
    if |gs| == 0 then NULL_GRADIENT else if |gs| == 1 then gs[0] else Folded(gs)
  }

  method CollectMessages(grads: seq<Gradient>) returns (messages: seq<string>)
    ensures messages == Messages(grads)
  {
    messages := [];
    for i := 0 to |grads|
      invariant messages == Messages(grads[..i])
    {
      assert grads[..i + 1][..i] == grads[..i];
      if grads[i].message != "" {
        messages := messages + [grads[i].message];
      }
    }
    assert grads[..|grads|] == grads;
  }

  /** The inner loop: the new paths of one gradient, in order. */
  method AddPaths(more: seq<string>, paths: seq<string>, seen: set<string>, ghost before: seq<string>)
    returns (paths': seq<string>, seen': set<string>)
    requires paths == Dedup(before) && forall p :: p in seen <==> p in before
    ensures paths' == Dedup(before + more) && forall p :: p in seen' <==> p in before + more
  {
    paths', seen' := paths, seen;
    assert before + more[..0] == before;
    for j := 0 to |more|
      invariant paths' == Dedup(before + more[..j])
      invariant forall p :: p in seen' <==> p in before + more[..j]
    {
      assert before + more[..j + 1] == (before + more[..j]) + [more[j]];
      if more[j] !in seen' {
        seen', paths' := seen' + {more[j]}, paths' + [more[j]];
      }
    }
    assert more[..|more|] == more;
  }

  method CollectPaths(grads: seq<Gradient>) returns (paths: seq<string>)
    ensures paths == Dedup(Paths(grads))
  {
    paths := [];
    var seen: set<string> := {};
    for i := 0 to |grads|
      invariant paths == Dedup(Paths(grads[..i]))
      invariant forall p :: p in seen <==> p in Paths(grads[..i])
    {
      assert grads[..i + 1][..i] == grads[..i];
      paths, seen := AddPaths(grads[i].targetPaths, paths, seen, Paths(grads[..i]));
    }
    assert grads[..|grads|] == grads;
  }

  function At(lists: map<string, seq<string>>, k: string): seq<string> {
    if k in lists then lists[k] else []
  }

  ghost predicate Appended(lists: map<string, seq<string>>, fields: map<string, string>, todo: set<string>,
                           longer: map<string, seq<string>>)
  {
    longer.Keys == lists.Keys + (fields.Keys - todo) &&
    forall k :: At(longer, k) == At(lists, k) + (if k in fields && k !in todo then [fields[k]] else [])
  }

  lemma AppendStep(lists: map<string, seq<string>>, fields: map<string, string>, todo: set<string>,
                   longer: map<string, seq<string>>, k: string, more: map<string, seq<string>>)
    requires Appended(lists, fields, todo, longer) && k in todo && k in fields
    requires more == longer[k := At(longer, k) + [fields[k]]]
    ensures Appended(lists, fields, todo - {k}, more)
  {
    forall l
      ensures At(more, l) == At(lists, l) + (if l in fields && l !in todo - {k} then [fields[l]] else [])
    {
      if l == k {
        assert At(longer, k) == At(lists, k);
      } else {
        assert At(more, l) == At(longer, l);
      }
    }
  }

  /** `setdefault(k, []).append(v)` over the items of one gradient. */
  method AppendFields(lists: map<string, seq<string>>, fields: map<string, string>)
    returns (longer: map<string, seq<string>>)
    ensures Appended(lists, fields, {}, longer)
  {
    longer := lists;
    var todo := fields.Keys;
    while todo != {}
      invariant todo <= fields.Keys
      invariant Appended(lists, fields, todo, longer)
      decreases todo
    {
      var k :| k in todo;
      var more := longer[k := At(longer, k) + [fields[k]]];
      AppendStep(lists, fields, todo, longer, k, more);
      longer, todo := more, todo - {k};
    }
  }

  method CollectFields(grads: seq<Gradient>) returns (lists: map<string, seq<string>>)
    ensures lists.Keys == FieldNames(grads)
    ensures forall k :: At(lists, k) == Values(grads, k)
  {
    lists := map[];
    for i := 0 to |grads|
      invariant lists.Keys == FieldNames(grads[..i])
      invariant forall k :: At(lists, k) == Values(grads[..i], k)
    {
      assert grads[..i + 1][..i] == grads[..i];
      lists := AppendFields(lists, grads[i].byField);
    }
    assert grads[..|grads|] == grads;
  }

  method WorstSeverity(grads: seq<Gradient>) returns (severity: real)
    requires |grads| >= 1
    ensures severity == Worst(grads)
  {
    severity := grads[0].severity;
    for i := 1 to |grads|
      invariant severity == Worst(grads[..i])
    {
      assert grads[..i + 1][..i] == grads[..i];
      if grads[i].severity > severity {
        severity := grads[i].severity;
      }
    }
    assert grads[..|grads|] == grads;
  }

  /** `_merge_grads`. */
  method MergeGrads(grads: seq<Gradient>) returns (merged: Gradient)
    ensures merged == Merged(grads)
  {
    if |grads| == 0 {
      return NULL_GRADIENT;
    }
    if |grads| == 1 {
      return grads[0];
    }
    var messages := CollectMessages(grads);
    var paths := CollectPaths(grads);
    var lists := CollectFields(grads);
    var severity := WorstSeverity(grads);
    var fields := map k | k in lists :: Join(lists[k]);
    assert forall k :: k in lists ==> lists[k] == At(lists, k);
    return Gradient(Join(messages), fields, severity, paths);
  }

  // ---- Merging is insensitive to grouping ---------------------------------------

  lemma {:induction false} JoinConcat(a: seq<string>, b: seq<string>)
    requires |a| >= 1 && |b| >= 1
    ensures Join(a + b) == Join(a) + SEPARATOR + Join(b)
  {
    if |a| == 1 {
      assert (a + b)[1..] == b;
    } else {
      assert (a + b)[1..] == a[1..] + b;
      JoinConcat(a[1..], b);
    }
  }

  lemma JoinNested(a: seq<string>, b: seq<string>)
    requires |b| >= 1
    ensures Join(a + [Join(b)]) == Join(a + b)
  {
    if |a| == 0 {
      assert a + [Join(b)] == [Join(b)] && a + b == b;
    } else {
      JoinConcat(a, b);
      JoinConcat(a, [Join(b)]);
    }
  }

  lemma {:induction false} MessagesConcat(xs: seq<Gradient>, ys: seq<Gradient>)
    ensures Messages(xs + ys) == Messages(xs) + Messages(ys)
  {
    if |ys| == 0 {
      assert xs + ys == xs;
    } else {
      assert (xs + ys)[..|xs + ys| - 1] == xs + ys[..|ys| - 1];
      MessagesConcat(xs, ys[..|ys| - 1]);
    }
  }

  lemma {:induction false} ValuesConcat(xs: seq<Gradient>, ys: seq<Gradient>, k: string)
    ensures Values(xs + ys, k) == Values(xs, k) + Values(ys, k)
  {
    if |ys| == 0 {
      assert xs + ys == xs;
    } else {
      assert (xs + ys)[..|xs + ys| - 1] == xs + ys[..|ys| - 1];
      ValuesConcat(xs, ys[..|ys| - 1], k);
    }
  }

  lemma {:induction false} NamesConcat(xs: seq<Gradient>, ys: seq<Gradient>)
    ensures FieldNames(xs + ys) == FieldNames(xs) + FieldNames(ys)
  {
    if |ys| == 0 {
      assert xs + ys == xs;
    } else {
      assert (xs + ys)[..|xs + ys| - 1] == xs + ys[..|ys| - 1];
      NamesConcat(xs, ys[..|ys| - 1]);
    }
  }

  lemma {:induction false} PathsConcat(xs: seq<Gradient>, ys: seq<Gradient>)
    ensures Paths(xs + ys) == Paths(xs) + Paths(ys)
  {
    if |ys| == 0 {
      assert xs + ys == xs;
    } else {
      assert (xs + ys)[..|xs + ys| - 1] == xs + ys[..|ys| - 1];
      PathsConcat(xs, ys[..|ys| - 1]);
    }
  }

  lemma {:induction false} WorstConcat(xs: seq<Gradient>, ys: seq<Gradient>)
    requires |xs| >= 1 && |ys| >= 1
    ensures Worst(xs + ys) == if Worst(ys) > Worst(xs) then Worst(ys) else Worst(xs)
  {
    var init := ys[..|ys| - 1];
    assert (xs + ys)[..|xs + ys| - 1] == xs + init;
    if |ys| == 1 {
      assert xs + init == xs;
    } else {
      WorstConcat(xs, init);
    }
  }

  lemma {:induction false} DedupNested(a: seq<string>, b: seq<string>)
    ensures Dedup(a + Dedup(b)) == Dedup(a + b)
    ensures forall x :: x in Dedup(b) <==> x in b
  {
    if |b| == 0 {
      assert a + b == a && a + Dedup(b) == a;
    } else {
      var init, last := b[..|b| - 1], b[|b| - 1];
      DedupNested(a, init);
      assert (a + b)[..|a + b| - 1] == a + init;
      assert forall x :: x in b <==> x in init || x == last;
      if last !in init {
        assert a + Dedup(b) == (a + Dedup(init)) + [last];
      } else if last in a {
        assert Dedup(a + b) == Dedup(a + init);
      }
    }
  }

  lemma {:induction false} MessagesNonEmpty(gs: seq<Gradient>)
    ensures forall i :: 0 <= i < |Messages(gs)| ==> Messages(gs)[i] != ""
  {
    if |gs| > 0 {
      MessagesNonEmpty(gs[..|gs| - 1]);
    }
  }

  lemma {:induction false} NamesHaveValues(gs: seq<Gradient>, k: string)
    ensures k in FieldNames(gs) <==> |Values(gs, k)| >= 1
  {
    if |gs| > 0 {
      NamesHaveValues(gs[..|gs| - 1], k);
    }
  }

  lemma OneParts(g: Gradient, k: string)
    ensures Messages([g]) == if g.message != "" then [g.message] else []
    ensures Values([g], k) == if k in g.byField then [g.byField[k]] else []
    ensures FieldNames([g]) == g.byField.Keys
    ensures Paths([g]) == g.targetPaths
  {
    assert [g][..0] == [];
  }

  lemma MessageNested(xs: seq<Gradient>, ys: seq<Gradient>)
    requires |xs| >= 1 && |ys| >= 2
    ensures Join(Messages(xs + [Folded(ys)])) == Join(Messages(xs + ys))
  {
    var m := Folded(ys);
    MessagesConcat(xs, ys);
    MessagesConcat(xs, [m]);
    OneParts(m, "");
    MessagesNonEmpty(ys);
    if |Messages(ys)| >= 1 {
      assert Messages(ys)[0] != "";
      assert m.message != "";
      JoinNested(Messages(xs), Messages(ys));
    }
  }

  lemma FieldNested(xs: seq<Gradient>, ys: seq<Gradient>, k: string)
    requires |xs| >= 1 && |ys| >= 2
    ensures k in FieldNames(xs + [Folded(ys)]) <==> k in FieldNames(xs + ys)
    ensures k in FieldNames(xs + ys) ==> Join(Values(xs + [Folded(ys)], k)) == Join(Values(xs + ys, k))
  {
    var m := Folded(ys);
    NamesConcat(xs, ys);
    NamesConcat(xs, [m]);
    ValuesConcat(xs, ys, k);
    ValuesConcat(xs, [m], k);
    OneParts(m, k);
    NamesHaveValues(ys, k);
    if k in FieldNames(ys) {
      JoinNested(Values(xs, k), Values(ys, k));
    } else {
      assert Values(ys, k) == [];
    }
  }

  lemma PathNested(xs: seq<Gradient>, ys: seq<Gradient>)
    requires |xs| >= 1 && |ys| >= 2
    ensures Dedup(Paths(xs + [Folded(ys)])) == Dedup(Paths(xs + ys))
  {
    PathsConcat(xs, ys);
    PathsConcat(xs, [Folded(ys)]);
    OneParts(Folded(ys), "");
    DedupNested(Paths(xs), Paths(ys));
  }

  lemma WorstNested(xs: seq<Gradient>, ys: seq<Gradient>)
    requires |xs| >= 1 && |ys| >= 2
    ensures Worst(xs + [Folded(ys)]) == Worst(xs + ys)
  {
    WorstConcat(xs, ys);
    WorstConcat(xs, [Folded(ys)]);
  }

  /** Merging a tail first changes nothing: the merged tail stands for its members. */
  lemma MergeNested(xs: seq<Gradient>, ys: seq<Gradient>)
    requires |xs| >= 1 && |ys| >= 1
    ensures Merged(xs + [Merged(ys)]) == Merged(xs + ys)
  {
    if |ys| == 1 {
      assert ys == [ys[0]];
    } else {
      var nested, flat := Folded(xs + [Folded(ys)]), Folded(xs + ys);
      MessageNested(xs, ys);
      WorstNested(xs, ys);
      PathNested(xs, ys);
      assert nested.byField == flat.byField by {
        forall k
          ensures k in nested.byField <==> k in flat.byField
          ensures k in nested.byField ==> nested.byField[k] == flat.byField[k]
        {
          FieldNested(xs, ys, k);
        }
      }
    }
  }

  // ---- The accumulation window ----------------------------------------------------

  /** What one batch does to a parameter's gradient: its samples' gradients are merged with the
      pending one, but a batch without a contribution leaves nothing pending. */
  function AfterBatch(pending: Option<Gradient>, samples: seq<Gradient>): Option<Gradient> {
    if |samples| == 0 then None
    else
      Some(Merged(samples + (if pending.Some? && pending.value.severity > 0.0 then [pending.value] else [])))
  }

  function AfterWindow(batches: seq<seq<Gradient>>): Option<Gradient> {
    if |batches| == 0 then None
    else AfterBatch(AfterWindow(batches[..|batches| - 1]), batches[|batches| - 1])
  }

  /** All samples of the window, newest batch first. */
  function Flat(batches: seq<seq<Gradient>>): seq<Gradient> {
    if |batches| == 0 then [] else batches[|batches| - 1] + Flat(batches[..|batches| - 1])
  }

  function FlatMerge(batches: seq<seq<Gradient>>): Option<Gradient> {
    if |Flat(batches)| == 0 then None else Some(Merged(Flat(batches)))
  }

  // ---- One batch, on the parameters' own gradient slots --------------------------

  /** One sample of a batch: its score, the severity of its loss gradient, and what the backward
      pass writes on each parameter (`None`: that parameter is not reached). */
  datatype Sample = Sample(score: real, severity: real, written: seq<Option<Gradient>>)

  /** A gradient of no severity is never acted upon. */
  predicate Pending(g: Option<Gradient>) {
    g.Some? && g.value.severity > 0.0
  }

  function PendingPart(g: Option<Gradient>): Option<Gradient> {
    if Pending(g) then g else None
  }

  /** The gradients the samples contribute to parameter `p`, in sample order. */
  function Contributions(samples: seq<Sample>, p: nat): (gs: seq<Gradient>)
    requires forall i :: 0 <= i < |samples| ==> p < |samples[i].written|
    ensures Severe(gs)
  {
    if |samples| == 0 then []
    else
      var last := samples[|samples| - 1];
      Contributions(samples[..|samples| - 1], p) +
      (if last.severity > 0.0 && Pending(last.written[p]) then [last.written[p].value] else [])
  }

  function Scores(samples: seq<Sample>): real {
    if |samples| == 0 then 0.0 else Scores(samples[..|samples| - 1]) + samples[|samples| - 1].score
  }

  /** The backward pass of one sample, then the pass that moves each gradient of positive severity
      off its parameter. */
  method CollectSample(grad: array<Option<Gradient>>, written: seq<Option<Gradient>>, lists: seq<seq<Gradient>>)
    returns (longer: seq<seq<Gradient>>)
    requires grad.Length == |written| == |lists|
    requires forall p :: 0 <= p < grad.Length ==> !Pending(grad[p])
    modifies grad
    ensures |longer| == |lists|
    ensures forall p :: 0 <= p < grad.Length ==> !Pending(grad[p])
    ensures forall p :: 0 <= p < |lists| ==>
      longer[p] == lists[p] + (if Pending(written[p]) then [written[p].value] else [])
  {
    longer := lists;
    for p := 0 to grad.Length
      invariant |longer| == |lists|
      invariant forall q :: 0 <= q < grad.Length ==> !Pending(grad[q])
      invariant forall q :: 0 <= q < p ==>
        longer[q] == lists[q] + (if Pending(written[q]) then [written[q].value] else [])
      invariant forall q :: p <= q < |lists| ==> longer[q] == lists[q]
    {
      if written[p].Some? {
        grad[p] := written[p];
      }
      if grad[p].Some? && grad[p].value.severity > 0.0 {
        longer := longer[p := longer[p] + [grad[p].value]];
        grad[p] := None;
      }
    }
  }

  ghost predicate Settled(g: Option<Gradient>, before: Option<Gradient>, samples: seq<Gradient>) {
    PendingPart(g) == AfterBatch(PendingPart(before), samples)
  }

  /** The gradient of one parameter: its samples' gradients and the pending one become one. */
  method MergeOne(pending: Option<Gradient>, samples: seq<Gradient>) returns (merged: Gradient)
    requires |samples| > 0 && Severe(samples)
    ensures Settled(Some(merged), pending, samples)
  {
    var rest := if pending.Some? && pending.value.severity > 0.0 then [pending.value] else [];
    merged := MergeGrads(samples + rest);
    MergedSevere(samples + rest);
  }

  /** The last pass: each parameter that was reached gets one merged gradient. */
  method MergeInto(grad: array<Option<Gradient>>, before: seq<Option<Gradient>>, lists: seq<seq<Gradient>>)
    requires grad.Length == |before| == |lists|
    requires forall p :: 0 <= p < grad.Length ==> !Pending(grad[p]) && Severe(lists[p])
    modifies grad
    ensures forall p :: 0 <= p < grad.Length ==> Settled(grad[p], before[p], lists[p])
  {
    for p := 0 to grad.Length
      invariant forall q :: 0 <= q < p ==> Settled(grad[q], before[q], lists[q])
      invariant forall q :: p <= q < grad.Length ==> !Pending(grad[q])
    {
      if |lists[p]| > 0 {
        var merged := MergeOne(before[p], lists[p]);
        grad[p] := Some(merged);
      }
    }
  }

  /** `Trainer._run_batch`: on every parameter the gradient pending from earlier batches and the
      samples of this one become what `AfterBatch` says; the loss is the samples' mean. */
  method RunBatch(grad: array<Option<Gradient>>, samples: seq<Sample>) returns (meanLoss: real, count: nat)
    requires forall i :: 0 <= i < |samples| ==> |samples[i].written| == grad.Length
    modifies grad
    ensures count == |samples|
    ensures meanLoss * count as real == Scores(samples) && (count == 0 ==> meanLoss == 0.0)
    ensures forall p :: 0 <= p < grad.Length ==>
      Settled(grad[p], old(grad[p]), Contributions(samples, p))
  {
    var before := grad[..];
    for p := 0 to grad.Length
      invariant forall q :: 0 <= q < p ==> grad[q] == None
      invariant forall q :: p <= q < grad.Length ==> grad[q] == before[q]
    {
      grad[p] := None;
    }
    var lists: seq<seq<Gradient>> := seq(grad.Length, _ => []);
    var lossSum := 0.0;
    for i := 0 to |samples|
      invariant |lists| == grad.Length
      invariant lossSum == Scores(samples[..i])
      invariant forall p :: 0 <= p < grad.Length ==> !Pending(grad[p])
      invariant forall p :: 0 <= p < grad.Length ==> lists[p] == Contributions(samples[..i], p)
    {
      assert samples[..i + 1][..i] == samples[..i];
      lossSum := lossSum + samples[i].score;
      if samples[i].severity > 0.0 {
        lists := CollectSample(grad, samples[i].written, lists);
      }
    }
    assert samples[..|samples|] == samples;
    MergeInto(grad, before, lists);
    meanLoss, count := if |samples| > 0 then lossSum / |samples| as real else 0.0, |samples|;
  }

  ghost predicate Severe(gs: seq<Gradient>) {
    forall i :: 0 <= i < |gs| ==> gs[i].severity > 0.0
  }

  ghost predicate AllSevere(batches: seq<seq<Gradient>>) {
    forall b :: 0 <= b < |batches| ==> Severe(batches[b])
  }

  lemma {:induction false} MergedSevere(gs: seq<Gradient>)
    requires |gs| >= 1 && Severe(gs)
    ensures Merged(gs).severity > 0.0 && Worst(gs) > 0.0
  {
    if |gs| >= 2 {
      MergedSevere(gs[..|gs| - 1]);
    }
  }

  lemma {:induction false} FlatSevere(batches: seq<seq<Gradient>>)
    requires AllSevere(batches)
    ensures Severe(Flat(batches))
  {
    if |batches| > 0 {
      FlatSevere(batches[..|batches| - 1]);
    }
  }

  /** No batch that contributed is followed by one that did not; `shape[b]` counts batch `b`. */
  ghost predicate NothingDropped(shape: seq<nat>) {
    forall a, b :: 0 <= a < b < |shape| && shape[a] > 0 ==> shape[b] > 0
  }

  ghost predicate HasShape(batches: seq<seq<Gradient>>, shape: seq<nat>) {
    |batches| == |shape| && forall b :: 0 <= b < |shape| ==> |batches[b]| == shape[b]
  }

  /** BATCH BOUNDARIES DO NOT MATTER. When no contribution is followed by an empty batch, the
      window's gradient is the one merge of all its samples. */
  lemma {:induction false} WindowIsFlatMerge(batches: seq<seq<Gradient>>, shape: seq<nat>)
    requires AllSevere(batches) && HasShape(batches, shape) && NothingDropped(shape)
    ensures AfterWindow(batches) == FlatMerge(batches)
    decreases |batches|
  {
    if |batches| > 0 {
      var init, last := batches[..|batches| - 1], batches[|batches| - 1];
      WindowIsFlatMerge(init, shape[..|shape| - 1]);
      if |last| == 0 {
        AllEmpty(init, shape[..|shape| - 1]);
      } else if |Flat(init)| > 0 {
        FlatSevere(init);
        MergedSevere(Flat(init));
        MergeNested(last, Flat(init));
      } else {
        assert last + [] == last && last + Flat(init) == last;
      }
    }
  }

  lemma {:induction false} AllEmpty(batches: seq<seq<Gradient>>, shape: seq<nat>)
    requires HasShape(batches, shape) && forall b :: 0 <= b < |shape| ==> shape[b] == 0
    ensures Flat(batches) == []
  {
    if |batches| > 0 {
      AllEmpty(batches[..|batches| - 1], shape[..|shape| - 1]);
    }
  }

  // ---- The exact condition -----------------------------------------------------------

  const PLAIN: Gradient := Gradient("x", map[], 1.0, [])

  function Copies(n: nat): seq<Gradient> {
    seq(n, _ => PLAIN)
  }

  function Uniform(shape: seq<nat>): (batches: seq<seq<Gradient>>)
    ensures HasShape(batches, shape) && AllSevere(batches)
  {
    seq(|shape|, b requires 0 <= b < |shape| => Copies(shape[b]))
  }

  function Total(shape: seq<nat>): nat {
    if |shape| == 0 then 0 else Total(shape[..|shape| - 1]) + shape[|shape| - 1]
  }

  /** Samples that still count after the window: those since the last empty batch. */
  function Kept(shape: seq<nat>): nat {
    if |shape| == 0 || shape[|shape| - 1] == 0 then 0
    else Kept(shape[..|shape| - 1]) + shape[|shape| - 1]
  }

  lemma {:induction false} CopiesParts(n: nat)
    ensures |Messages(Copies(n))| == n
    ensures forall i :: 0 <= i < n ==> Messages(Copies(n))[i] == "x"
  {
    if n > 0 {
      assert Copies(n)[..n - 1] == Copies(n - 1);
      CopiesParts(n - 1);
    }
  }

  lemma {:induction false} JoinLength(parts: seq<string>)
    requires |parts| >= 1 && forall i :: 0 <= i < |parts| ==> parts[i] == "x"
    ensures |Join(parts)| == 6 * |parts| - 5
  {
    if |parts| > 1 {
      JoinLength(parts[1..]);
    }
  }

  lemma MergedCopies(n: nat)
    requires n >= 1
    ensures |Merged(Copies(n)).message| == 6 * n - 5
    ensures Merged(Copies(n)).severity > 0.0
  {
    CopiesParts(n);
    JoinLength(Messages(Copies(n)));
    MergedSevere(Copies(n));
  }

  lemma CopiesAdd(m: nat, n: nat)
    ensures Copies(m) + Copies(n) == Copies(m + n)
  {
  }

  /** The gradient after n samples that count. */
  function Counted(n: nat): Option<Gradient> {
    if n == 0 then None else Some(Merged(Copies(n)))
  }

  lemma UniformBatch(kept: nat, last: nat)
    ensures AfterBatch(Counted(kept), Copies(last)) == if last == 0 then None else Counted(kept + last)
  {
    if last > 0 && kept > 0 {
      MergedCopies(kept);
      MergeNested(Copies(last), Copies(kept));
      CopiesAdd(last, kept);
    } else if last > 0 {
      assert Copies(last) + [] == Copies(last);
    }
  }

  lemma UniformStep(init: seq<nat>, last: nat)
    ensures Uniform(init + [last]) == Uniform(init) + [Copies(last)]
  {
  }

  lemma WindowStep(batches: seq<seq<Gradient>>, last: seq<Gradient>)
    ensures AfterWindow(batches + [last]) == AfterBatch(AfterWindow(batches), last)
  {
    assert (batches + [last])[..|batches|] == batches;
  }

  lemma UniformMore(init: seq<nat>, last: nat, kept: nat, more: nat)
    requires AfterWindow(Uniform(init)) == Counted(kept)
    requires more == if last == 0 then 0 else kept + last
    ensures AfterWindow(Uniform(init + [last])) == Counted(more)
  {
    UniformStep(init, last);
    WindowStep(Uniform(init), Copies(last));
    UniformBatch(kept, last);
  }

  lemma {:induction false} UniformWindow(shape: seq<nat>, kept: nat)
    requires kept == Kept(shape)
    ensures AfterWindow(Uniform(shape)) == Counted(kept)
  {
    if |shape| > 0 {
      var init, last := shape[..|shape| - 1], shape[|shape| - 1];
      assert shape == init + [last];
      UniformWindow(init, Kept(init));
      UniformMore(init, last, Kept(init), kept);
    }
  }

  lemma {:induction false} UniformFlat(shape: seq<nat>)
    ensures Flat(Uniform(shape)) == Copies(Total(shape))
  {
    if |shape| > 0 {
      var init, last := shape[..|shape| - 1], shape[|shape| - 1];
      assert Uniform(shape)[..|shape| - 1] == Uniform(init);
      UniformFlat(init);
      CopiesAdd(last, Total(init));
    }
  }

  lemma {:induction false} KeptLess(shape: seq<nat>)
    ensures Kept(shape) <= Total(shape)
    ensures !NothingDropped(shape) ==> Kept(shape) < Total(shape)
  {
    if |shape| > 0 {
      var init, last := shape[..|shape| - 1], shape[|shape| - 1];
      KeptLess(init);
      if last == 0 && !NothingDropped(shape) {
        var a, b :| 0 <= a < b < |shape| && shape[a] > 0 && shape[b] == 0;
        SomePositive(init, a);
      } else if last > 0 && !NothingDropped(shape) {
        var a, b :| 0 <= a < b < |shape| && shape[a] > 0 && shape[b] == 0;
        assert init[a] > 0 && init[b] == 0;
      }
    }
  }

  lemma {:induction false} SomePositive(shape: seq<nat>, a: nat)
    requires a < |shape| && shape[a] > 0
    ensures Total(shape) > 0
  {
    if a < |shape| - 1 {
      SomePositive(shape[..|shape| - 1], a);
    }
  }

  ghost predicate BoundariesDoNotMatter(shape: seq<nat>) {
    forall batches: seq<seq<Gradient>> :: HasShape(batches, shape) && AllSevere(batches) ==>
      AfterWindow(batches) == FlatMerge(batches)
  }

  /** EXACT CONDITION. For a window of a given shape, batch boundaries never matter if and only if
      no contributing batch is followed by an empty one. */
  lemma BoundariesDoNotMatterIff(shape: seq<nat>)
    ensures BoundariesDoNotMatter(shape) <==> NothingDropped(shape)
  {
    if NothingDropped(shape) {
      forall batches: seq<seq<Gradient>> | HasShape(batches, shape) && AllSevere(batches)
        ensures AfterWindow(batches) == FlatMerge(batches)
      {
        WindowIsFlatMerge(batches, shape);
      }
    } else {
      UniformWindow(shape, Kept(shape));
      UniformFlat(shape);
      KeptLess(shape);
      MergedCopies(Total(shape));
      if Kept(shape) > 0 {
        MergedCopies(Kept(shape));
      }
      assert AfterWindow(Uniform(shape)) != FlatMerge(Uniform(shape));
    }
  }

  // ---- Arrival order -------------------------------------------------------------------

  /** All samples of the window as they arrived. */
  function Arrival(batches: seq<seq<Gradient>>): seq<Gradient> {
    if |batches| == 0 then [] else Arrival(batches[..|batches| - 1]) + batches[|batches| - 1]
  }

  function ArrivalMerge(batches: seq<seq<Gradient>>): Option<Gradient> {
    if |Arrival(batches)| == 0 then None else Some(Merged(Arrival(batches)))
  }

  ghost predicate AtMostOneContributes(shape: seq<nat>) {
    forall a, b :: 0 <= a < b < |shape| ==> shape[a] == 0 || shape[b] == 0
  }

  ghost predicate InArrivalOrder(shape: seq<nat>) {
    forall batches: seq<seq<Gradient>> :: HasShape(batches, shape) && AllSevere(batches) ==>
      AfterWindow(batches) == ArrivalMerge(batches)
  }

  lemma {:induction false} OneContributor(batches: seq<seq<Gradient>>, shape: seq<nat>)
    requires HasShape(batches, shape) && AtMostOneContributes(shape)
    ensures Flat(batches) == Arrival(batches)
    decreases |batches|
  {
    if |batches| > 0 {
      var init, last := batches[..|batches| - 1], batches[|batches| - 1];
      OneContributor(init, shape[..|shape| - 1]);
      if |last| > 0 {
        AllEmpty(init, shape[..|shape| - 1]);
      }
    }
  }

  function Labelled(n: nat, p: string): seq<Gradient> {
    seq(n, _ => Gradient("x", map[], 1.0, [p]))
  }

  lemma {:induction false} PathsLabelled(n: nat, p: string)
    requires n >= 1
    ensures |Paths(Labelled(n, p))| >= 1 && Paths(Labelled(n, p))[0] == p
  {
    assert Labelled(n, p)[..n - 1] == Labelled(n - 1, p);
    if n > 1 {
      PathsLabelled(n - 1, p);
    }
  }

  lemma {:induction false} DedupFirst(s: seq<string>)
    requires |s| >= 1
    ensures |Dedup(s)| >= 1 && Dedup(s)[0] == s[0]
  {
    if |s| > 1 {
      DedupFirst(s[..|s| - 1]);
    }
  }

  lemma FirstTarget(n: nat, p: string, rest: seq<Gradient>)
    requires n >= 1 && |rest| >= 1
    ensures |Merged(Labelled(n, p) + rest).targetPaths| >= 1 && Merged(Labelled(n, p) + rest).targetPaths[0] == p
  {
    PathsLabelled(n, p);
    PathsConcat(Labelled(n, p), rest);
    DedupFirst(Paths(Labelled(n, p) + rest));
  }

  /** Batches of this shape; the samples of the last one aim at "q", all others at "p". */
  function Marked(shape: seq<nat>): (batches: seq<seq<Gradient>>)
    ensures HasShape(batches, shape) && AllSevere(batches)
  {
    seq(|shape|, b requires 0 <= b < |shape| => Labelled(shape[b], if b == |shape| - 1 then "q" else "p"))
  }

  function AllLabelled(shape: seq<nat>, p: string): seq<seq<Gradient>> {
    seq(|shape|, b requires 0 <= b < |shape| => Labelled(shape[b], p))
  }

  lemma {:induction false} ArrivalLabelled(shape: seq<nat>, p: string)
    ensures Arrival(AllLabelled(shape, p)) == Flat(AllLabelled(shape, p)) == Labelled(Total(shape), p)
  {
    if |shape| > 0 {
      var init := shape[..|shape| - 1];
      assert AllLabelled(shape, p)[..|shape| - 1] == AllLabelled(init, p);
      ArrivalLabelled(init, p);
    }
  }

  lemma MarkedParts(shape: seq<nat>)
    requires |shape| > 0
    ensures var early, last := Labelled(Total(shape[..|shape| - 1]), "p"), Labelled(shape[|shape| - 1], "q");
            Flat(Marked(shape)) == last + early && Arrival(Marked(shape)) == early + last
  {
    var batches, init := Marked(shape), shape[..|shape| - 1];
    assert batches[..|shape| - 1] == AllLabelled(init, "p");
    ArrivalLabelled(init, "p");
  }

  /** Two contributing batches: the newest one comes first. */
  lemma TwoContributors(shape: seq<nat>)
    requires NothingDropped(shape) && !AtMostOneContributes(shape)
    ensures AfterWindow(Marked(shape)) != ArrivalMerge(Marked(shape))
  {
    var a, b :| 0 <= a < b < |shape| && shape[a] > 0 && shape[b] > 0;
    var init, last := shape[..|shape| - 1], shape[|shape| - 1];
    assert init[a] > 0 && last > 0;
    SomePositive(init, a);
    MarkedParts(shape);
    WindowIsFlatMerge(Marked(shape), shape);
    FirstTarget(last, "q", Labelled(Total(init), "p"));
    FirstTarget(Total(init), "p", Labelled(last, "q"));
    assert "p" != "q";
  }

  lemma {:induction false} UniformArrival(shape: seq<nat>)
    ensures Arrival(Uniform(shape)) == Copies(Total(shape))
  {
    if |shape| > 0 {
      assert Uniform(shape)[..|shape| - 1] == Uniform(shape[..|shape| - 1]);
      UniformArrival(shape[..|shape| - 1]);
    }
  }

  /** EXACT CONDITION. For a window of a given shape the gradient is the merge of all samples in the
      order of their arrival if and only if nothing is dropped and at most one batch contributes. */
  lemma ArrivalOrderIff(shape: seq<nat>)
    ensures InArrivalOrder(shape) <==> NothingDropped(shape) && AtMostOneContributes(shape)
  {
    if NothingDropped(shape) && AtMostOneContributes(shape) {
      forall batches: seq<seq<Gradient>> | HasShape(batches, shape) && AllSevere(batches)
        ensures AfterWindow(batches) == ArrivalMerge(batches)
      {
        WindowIsFlatMerge(batches, shape);
        OneContributor(batches, shape);
      }
    } else if NothingDropped(shape) {
      TwoContributors(shape);
    } else {
      UniformWindow(shape, Kept(shape));
      UniformArrival(shape);
      KeptLess(shape);
      MergedCopies(Total(shape));
      if Kept(shape) > 0 {
        MergedCopies(Kept(shape));
      }
      assert AfterWindow(Uniform(shape)) != ArrivalMerge(Uniform(shape));
    }
  }

  /** Two batches of one sample each: their target paths come out in the wrong order. */
  lemma ArrivalOrderFails(a: Gradient, b: Gradient)
    requires a.severity > 0.0 && b.severity > 0.0 && a.targetPaths == ["p"] && b.targetPaths == ["q"]
    ensures AfterWindow([[a], [b]]) == Some(Merged([b, a])) && ArrivalMerge([[a], [b]]) == Some(Merged([a, b]))
    ensures Merged([b, a]).targetPaths == ["q", "p"] && Merged([a, b]).targetPaths == ["p", "q"]
  {
    var w := [[a], [b]];
    assert w[..1] == [[a]] && w[..1][..0] == [];
    assert AfterWindow(w[..1]) == Some(a) && Arrival(w[..1]) == [a];
    assert [b] + [a] == [b, a] && [a] + [b] == [a, b];
    PairPaths(a, b, "p", "q");
    PairPaths(b, a, "q", "p");
  }

  lemma DedupPair(p: string, q: string)
    requires p != q
    ensures Dedup([p, q]) == [p, q]
  {
    assert [p, q][..1] == [p] && [p][..0] == [];
    assert Dedup([p]) == Dedup([]) + [p] == [p];
  }

  lemma PathsPair(a: Gradient, b: Gradient)
    ensures Paths([a, b]) == a.targetPaths + b.targetPaths
  {
    assert [a, b][..1] == [a] && [a][..0] == [];
    assert Paths([a]) == Paths([]) + a.targetPaths == a.targetPaths;
  }

  lemma PairPaths(a: Gradient, b: Gradient, p: string, q: string)
    requires a.targetPaths == [p] && b.targetPaths == [q] && p != q
    ensures Merged([a, b]).targetPaths == [p, q]
  {
    PathsPair(a, b);
    DedupPair(p, q);
    assert [p] + [q] == [p, q];
  }
}
