/** What a merged gradient says, part by part. */
module MergedGradients {
  import opened Options
  import opened Gradients
  import opened Selections

  /** `ms` are the messages that are not empty, in order. */
  ghost predicate NonEmpty(gs: seq<Gradient>, js: seq<nat>, ms: seq<string>) {
    && Ascending(js, |gs|) && |ms| == |js|
    && (forall i :: 0 <= i < |gs| ==> (i in js <==> gs[i].message != ""))
    && forall k :: 0 <= k < |js| ==> ms[k] == gs[js[k]].message
  }

  /** `vs` are the values that there are for the field, in order. */
  ghost predicate OfField(gs: seq<Gradient>, field: string, js: seq<nat>, vs: seq<string>) {
    && Ascending(js, |gs|) && |vs| == |js|
    && (forall i :: 0 <= i < |gs| ==> (i in js <==> field in gs[i].byField))
    && forall k :: 0 <= k < |js| ==> field in gs[js[k]].byField && vs[k] == gs[js[k]].byField[field]
  }

  lemma NonEmptyGrows(gs: seq<Gradient>, g: Gradient, js: seq<nat>, ms: seq<string>)
    requires NonEmpty(gs, js, ms)
    ensures if g.message != "" then NonEmpty(gs + [g], js + [|gs|], ms + [g.message]) else NonEmpty(gs + [g], js, ms)
  {
    hide Ascending;
    AscendingGrows(js, |gs|);
    AscendingBelow(js, |gs|);
    var more := gs + [g];
    assert forall i :: 0 <= i < |gs| ==> more[i] == gs[i];
  }

  lemma OfFieldGrows(gs: seq<Gradient>, g: Gradient, field: string, js: seq<nat>, vs: seq<string>)
    requires OfField(gs, field, js, vs)
    ensures if field in g.byField then OfField(gs + [g], field, js + [|gs|], vs + [g.byField[field]])
            else OfField(gs + [g], field, js, vs)
  {
    hide Ascending;
    AscendingGrows(js, |gs|);
    AscendingBelow(js, |gs|);
    var more := gs + [g];
    assert forall i :: 0 <= i < |gs| ==> more[i] == gs[i];
  }

  lemma MessagesSnoc(gs: seq<Gradient>, g: Gradient)
    ensures Messages([]) == [] && NonEmpty([], [], [])
    ensures Messages(gs + [g]) == if g.message != "" then Messages(gs) + [g.message] else Messages(gs)
  {
    assert (gs + [g])[..|gs|] == gs;
  }

  lemma ValuesSnoc(gs: seq<Gradient>, g: Gradient, field: string)
    ensures Values([], field) == [] && OfField([], field, [], [])
    ensures Values(gs + [g], field) ==
            if field in g.byField then Values(gs, field) + [g.byField[field]] else Values(gs, field)
  {
    assert (gs + [g])[..|gs|] == gs;
  }

  lemma {:induction false} MessagesAre(gs: seq<Gradient>) returns (js: seq<nat>)
    ensures NonEmpty(gs, js, Messages(gs))
  {
    hide NonEmpty, Messages;
    if |gs| == 0 {
      js := [];
      MessagesSnoc([], NULL_GRADIENT);
      assert gs == [];
    } else {
      var init, g := gs[..|gs| - 1], gs[|gs| - 1];
      assert gs == init + [g];
      js := MessagesAre(init);
      NonEmptyGrows(init, g, js, Messages(init));
      MessagesSnoc(init, g);
      js := if g.message != "" then js + [|init|] else js;
    }
  }

  lemma {:induction false} ValuesAre(gs: seq<Gradient>, field: string) returns (js: seq<nat>)
    ensures OfField(gs, field, js, Values(gs, field))
  {
    hide OfField, Values;
    if |gs| == 0 {
      js := [];
      ValuesSnoc([], NULL_GRADIENT, field);
      assert gs == [];
    } else {
      var init, g := gs[..|gs| - 1], gs[|gs| - 1];
      assert gs == init + [g];
      js := ValuesAre(init, field);
      OfFieldGrows(init, g, field, js, Values(init, field));
      ValuesSnoc(init, g, field);
      js := if field in g.byField then js + [|init|] else js;
    }
  }

  lemma {:induction false} FieldsAre(gs: seq<Gradient>, field: string)
    ensures field in FieldNames(gs) <==> exists i :: 0 <= i < |gs| && field in gs[i].byField
  {
    if |gs| > 0 {
      var init := gs[..|gs| - 1];
      FieldsAre(init, field);
      if field in FieldNames(init) {
        var i :| 0 <= i < |init| && field in init[i].byField;
        assert field in gs[i].byField;
      }
      if i :| 0 <= i < |gs| && field in gs[i].byField {
        assert i < |init| ==> field in init[i].byField;
      }
    }
  }

  lemma {:induction false} WorstIsMax(gs: seq<Gradient>)
    requires |gs| >= 1
    ensures forall i :: 0 <= i < |gs| ==> gs[i].severity <= Worst(gs)
    ensures exists i :: 0 <= i < |gs| && gs[i].severity == Worst(gs)
  {
    if |gs| == 1 {
      assert gs[0].severity == Worst(gs);
    } else {
      var init, n := gs[..|gs| - 1], |gs| - 1;
      WorstIsMax(init);
      forall i | 0 <= i < |gs|
        ensures gs[i].severity <= Worst(gs)
      {
        assert i < n ==> gs[i] == init[i];
      }
      var i :| 0 <= i < |init| && init[i].severity == Worst(init);
      assert gs[i].severity == Worst(init) && gs[if gs[n].severity > Worst(init) then n else i].severity == Worst(gs);
    }
  }

  /** The paths of all gradients one after the other. */
  lemma {:induction false} PathsAre(gs: seq<Gradient>, i: nat)
    requires i < |gs|
    ensures Paths(gs) == Paths(gs[..i]) + gs[i].targetPaths + Paths(gs[i + 1..])
  {
    assert gs == gs[..i] + ([gs[i]] + gs[i + 1..]);
    PathsConcat(gs[..i], [gs[i]] + gs[i + 1..]);
    PathsConcat([gs[i]], gs[i + 1..]);
    OneParts(gs[i], "");
  }

  lemma {:induction false} DedupIs(s: seq<string>) returns (js: seq<nat>)
    ensures FirstOccurrences(s, Dedup(s), js)
  {
    if |s| == 0 {
      js := [];
    } else {
      hide FirstOccurrences;
      var init, x := s[..|s| - 1], s[|s| - 1];
      js := DedupIs(init);
      FirstsGrow(init, x, Dedup(init), js);
      assert s == init + [x];
      js := if x in init then js else js + [|init|];
    }
  }

  /** A MERGED GRADIENT says what its parts say: their messages and, field by field, their values, joined in
      order; each target path once, where it first occurs; and the worst severity. */
  lemma MergedSays(gs: seq<Gradient>) returns (js: seq<nat>, ps: seq<nat>)
    requires |gs| >= 2
    ensures NonEmpty(gs, js, Messages(gs)) && Merged(gs).message == Join(Messages(gs))
    ensures forall field :: field in Merged(gs).byField <==> exists i :: 0 <= i < |gs| && field in gs[i].byField
    ensures forall field :: field in Merged(gs).byField ==>
      exists vs: seq<string>, ks: seq<nat> :: OfField(gs, field, ks, vs) && Merged(gs).byField[field] == Join(vs)
    ensures FirstOccurrences(Paths(gs), Merged(gs).targetPaths, ps)
    ensures (forall i :: 0 <= i < |gs| ==> gs[i].severity <= Merged(gs).severity) &&
            exists i :: 0 <= i < |gs| && gs[i].severity == Merged(gs).severity
  {
    hide Messages, Values, FieldNames, Join, Dedup, Worst, Paths;
    js := MessagesAre(gs);
    ps := DedupIs(Paths(gs));
    WorstIsMax(gs);
    forall field
      ensures field in Merged(gs).byField <==> exists i :: 0 <= i < |gs| && field in gs[i].byField
    {
      FieldsAre(gs, field);
    }
    forall field | field in Merged(gs).byField
      ensures exists vs: seq<string>, ks: seq<nat> ::
        OfField(gs, field, ks, vs) && Merged(gs).byField[field] == Join(vs)
    {
      var ks := ValuesAre(gs, field);
      assert OfField(gs, field, ks, Values(gs, field));
    }
  }

  /** Joining puts the separator between two texts, and only there. */
  lemma JoinSeparates(a: seq<string>, b: seq<string>, m: string)
    ensures Join([]) == "" && Join([m]) == m
    ensures |a| >= 1 && |b| >= 1 ==> Join(a + b) == Join(a) + "\n---\n" + Join(b)
  {
    if |a| >= 1 && |b| >= 1 {
      JoinConcat(a, b);
    }
  }

  // ---- What the samples of a batch contribute -----------------------------------------------------

  /** Both the sample's loss and what the backward pass wrote on the parameter are severe. */
  predicate Reaches(s: Sample, p: nat)
    requires p < |s.written|
  {
    s.severity > 0.0 && s.written[p].Some? && s.written[p].value.severity > 0.0
  }

  /** `gs` are the gradients on parameter `p` of the samples that reach it, in sample order. */
  ghost predicate Reaching(samples: seq<Sample>, p: nat, js: seq<nat>, gs: seq<Gradient>)
    requires forall i :: 0 <= i < |samples| ==> p < |samples[i].written|
  {
    && Ascending(js, |samples|) && |js| == |gs|
    && (forall k :: 0 <= k < |js| ==> Reaches(samples[js[k]], p) && gs[k] == samples[js[k]].written[p].value)
    && forall i :: 0 <= i < |samples| && Reaches(samples[i], p) ==> i in js
  }

  lemma ReachingGrows(samples: seq<Sample>, s: Sample, p: nat, js: seq<nat>, gs: seq<Gradient>)
    requires p < |s.written| && forall i :: 0 <= i < |samples| ==> p < |samples[i].written|
    requires Reaching(samples, p, js, gs)
    ensures if Reaches(s, p) then Reaching(samples + [s], p, js + [|samples|], gs + [s.written[p].value])
            else Reaching(samples + [s], p, js, gs)
  {
    hide Ascending, Reaches;
    AscendingGrows(js, |samples|);
    AscendingBelow(js, |samples|);
  }

  /** THE CONTRIBUTIONS to a parameter are the gradients written by the samples that reach it, every one, in
      sample order. */
  lemma {:induction false} ContributionsAre(samples: seq<Sample>, p: nat) returns (js: seq<nat>)
    requires forall i :: 0 <= i < |samples| ==> p < |samples[i].written|
    ensures Reaching(samples, p, js, Contributions(samples, p))
  {
    if |samples| == 0 {
      js := [];
    } else {
      hide Reaching;
      var n := |samples| - 1;
      js := ContributionsAre(samples[..n], p);
      ReachingGrows(samples[..n], samples[n], p, js, Contributions(samples[..n], p));
      assert samples[..n] + [samples[n]] == samples;
      if Reaches(samples[n], p) {
        js := js + [n];
      } else {
        assert Contributions(samples, p) == Contributions(samples[..n], p);
      }
    }
  }

  lemma {:induction false} ScoresAdd(a: seq<Sample>, b: seq<Sample>)
    ensures Scores(a + b) == Scores(a) + Scores(b)
    ensures |b| == 1 ==> Scores(b) == b[0].score
  {
    if |b| == 0 {
      assert a + b == a;
    } else {
      assert (a + b)[..|a + b| - 1] == a + b[..|b| - 1];
      ScoresAdd(a, b[..|b| - 1]);
    }
  }
}
