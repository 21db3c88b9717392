/** What the ranking means for the backends in it, said of priorities, rules and model lists themselves
    (internal/provider/router/chat.go). */
module RankingLaws {
  import opened Text
  import opened Ranking

  // ---- Preferences ----

  /** A backend without rules always takes part, at its own priority: with score 2 if it lists the model,
      1 if no model is asked for or it lists none, and 0 if it lists only others. */
  lemma PlainPreference(b: Backend, model: string)
    requires b.routeRules == []
    ensures
      var p := PreferenceOf(b, model);
      && p.Preferred? && p.priority == b.priority
      && (p.score == 2 <==> model != "" && exists i :: 0 <= i < |b.models| && EqualFold(Trim(b.models[i]), model))
      && (p.score == 1 <==> model == "" || b.models == [])
      && (p.score == 0 <==> model != "" && b.models != [] && forall i :: 0 <= i < |b.models| ==> !EqualFold(Trim(b.models[i]), model))
  {
    hide Trim, EqualFold;
  }

  /** With rules, those for the model itself decide, whatever rules there are for any model; without them,
      those for any model; and of these the least priority counts. A rule of priority maxInt counts as
      absent, and a backend left without a rule does not take part. */
  lemma RulePreferenceMeans(b: Backend, model: string)
    requires b.routeRules != []
    ensures
      var p, rules := PreferenceOf(b, model), b.routeRules;
      var m := if model != "" && exists i :: 0 <= i < |rules| && Normalize(rules[i].model) == model && rules[i].priority < 0x7FFF_FFFF_FFFF_FFFF
               then model else "";
      if exists i :: 0 <= i < |rules| && Normalize(rules[i].model) == m && rules[i].priority < 0x7FFF_FFFF_FFFF_FFFF then
        && p.Preferred? && p.score == (if m != "" then 2 else 1)
        && (forall i :: 0 <= i < |rules| && Normalize(rules[i].model) == m ==> p.priority <= rules[i].priority)
        && (exists i :: 0 <= i < |rules| && Normalize(rules[i].model) == m && rules[i].priority == p.priority)
      else p.NotApplicable?
  {
    hide Normalize;
    LowestPriorityIsLowest(b.routeRules, |b.routeRules|, model);
    LowestPriorityIsLowest(b.routeRules, |b.routeRules|, "");
  }

  // ---- The order ----

  lemma {:induction false} SortedAt(xs: seq<Ranked>, i: nat, j: nat)
    requires Sorted(xs) && i < j < |xs|
    ensures !Before(xs[j], xs[i])
  {
    hide Before;
    if i > 0 {
      SortedAt(xs[1..], i - 1, j - 1);
    } else {
      assert xs[j] == xs[1..][j - 1];
    }
  }

  /** Higher scores come first; with equal scores, lower rule priorities; with these equal too, lower
      backend priorities. */
  lemma RankingOrder(backends: seq<Backend>, model: string, i: nat, j: nat)
    requires i < j < |RankedItems(backends, model)|
    ensures
      var a, b := RankedItems(backends, model)[i], RankedItems(backends, model)[j];
      && a.score >= b.score
      && (a.score == b.score ==> a.priority <= b.priority)
      && (a.score == b.score && a.priority == b.priority ==> a.backend.priority <= b.backend.priority)
  {
    hide Applicable, StableSort, Sorted;
    SortSorts(Applicable(backends, |backends|, Normalize(model)));
    SortedAt(RankedItems(backends, model), i, j);
  }

  /** An item of the ranking says what its backend's preference is. */
  lemma ItemsHavePreferences(backends: seq<Backend>, model: string, i: nat)
    requires i < |RankedItems(backends, model)|
    ensures
      var r := RankedItems(backends, model)[i];
      && r.backend in backends && r.backend == RankedBackends(backends, model)[i]
      && PreferenceOf(r.backend, Normalize(model)) == Preferred(r.score, r.priority)
  {
    hide PreferenceOf, StableSort, Applicable, Normalize;
    var normalized := Normalize(model);
    var r := RankedItems(backends, model)[i];
    Member(r, RankedItems(backends, model));
    Member(r, Applicable(backends, |backends|, normalized));
    ApplicableMembers(backends, |backends|, normalized);
  }

  lemma {:induction false} PreferredIsApplicable(backends: seq<Backend>, n: nat, i: nat, model: string)
    requires i < n <= |backends| && PreferenceOf(backends[i], model).Preferred?
    ensures
      var p := PreferenceOf(backends[i], model);
      Ranked(backends[i], p.score, p.priority) in Applicable(backends, n, model)
  {
    hide PreferenceOf;
    if i < n - 1 {
      PreferredIsApplicable(backends, n - 1, i, model);
    }
  }

  /** The ranking holds exactly the configured backends that have a preference. */
  lemma WhoIsRanked(backends: seq<Backend>, model: string, b: Backend)
    ensures b in RankedBackends(backends, model) <==> b in backends && PreferenceOf(b, Normalize(model)).Preferred?
  {
    hide PreferenceOf, StableSort, Applicable, Normalize;
    var normalized, items := Normalize(model), RankedItems(backends, model);
    if b in RankedBackends(backends, model) {
      var i :| 0 <= i < |items| && RankedBackends(backends, model)[i] == b;
      ItemsHavePreferences(backends, model, i);
    }
    if b in backends && PreferenceOf(b, normalized).Preferred? {
      var i :| 0 <= i < |backends| && backends[i] == b;
      PreferredIsApplicable(backends, |backends|, i, normalized);
      var r := Ranked(b, PreferenceOf(b, normalized).score, PreferenceOf(b, normalized).priority);
      Member(r, items);
      Member(r, Applicable(backends, |backends|, normalized));
      var k :| 0 <= k < |items| && items[k] == r;
      assert RankedBackends(backends, model)[k] == b;
    }
  }

  /** From the backends' own side: for a model that is asked for, one that lists it comes before one that
      lists none, and that before one that lists only others; within these groups the lower priority
      comes first. Each of them is ranked. */
  lemma ListedComesFirst(backends: seq<Backend>, model: string, i: nat, j: nat)
    requires i < j < |RankedBackends(backends, model)| && Normalize(model) != ""
    requires RankedBackends(backends, model)[i].routeRules == [] && RankedBackends(backends, model)[j].routeRules == []
    ensures
      var a, b, m := RankedBackends(backends, model)[i], RankedBackends(backends, model)[j], Normalize(model);
      var aLists, bLists := (exists k :: 0 <= k < |a.models| && EqualFold(Trim(a.models[k]), m)),
                            (exists k :: 0 <= k < |b.models| && EqualFold(Trim(b.models[k]), m));
      && (bLists ==> aLists)
      && (b.models == [] ==> aLists || a.models == [])
      && (aLists == bLists && (a.models == [] <==> b.models == []) ==> a.priority <= b.priority)
  {
    hide PreferenceOf, StableSort, Applicable, Normalize, Trim, EqualFold;
    RankingOrder(backends, model, i, j);
    ItemsHavePreferences(backends, model, i);
    ItemsHavePreferences(backends, model, j);
    PlainPreference(RankedBackends(backends, model)[i], Normalize(model));
    PlainPreference(RankedBackends(backends, model)[j], Normalize(model));
  }

  // ---- Ties ----

  lemma {:induction false} InsertShifts(x: Ranked, ys: seq<Ranked>) returns (at: nat)
    ensures at <= |ys| && |Insert(x, ys)| == |ys| + 1 && Insert(x, ys)[at] == x
    ensures forall j :: 0 <= j < at ==> Insert(x, ys)[j] == ys[j] && Before(ys[j], x)
    ensures forall j :: at <= j < |ys| ==> Insert(x, ys)[j + 1] == ys[j]
  {
    hide Before;
    if ys == [] || !Before(ys[0], x) {
      at := 0;
    } else {
      var k := InsertShifts(x, ys[1..]);
      at := k + 1;
      forall j | 0 <= j < at ensures Insert(x, ys)[j] == ys[j] && Before(ys[j], x) {
        if j > 0 {
          assert ys[1..][j - 1] == ys[j];
        }
      }
      forall j | at <= j < |ys| ensures Insert(x, ys)[j + 1] == ys[j] {
        assert ys[1..][j - 1] == ys[j];
      }
    }
  }

  lemma {:induction false} SortKeepsLength(xs: seq<Ranked>)
    ensures |StableSort(xs)| == |xs|
  {
    assert |multiset(StableSort(xs))| == |multiset(xs)|;
  }

  /** Where two items with the same key end up: in the order in which they came. */
  lemma {:induction false} TiesKeepOrder(xs: seq<Ranked>, p: nat, q: nat) returns (i: nat, j: nat)
    requires p < q < |xs|
    requires xs[p].score == xs[q].score && xs[p].priority == xs[q].priority && xs[p].backend.priority == xs[q].backend.priority
    ensures i < j < |StableSort(xs)| && StableSort(xs)[i] == xs[p] && StableSort(xs)[j] == xs[q]
  {
    var rest := StableSort(xs[1..]);
    SortKeepsLength(xs);
    SortKeepsLength(xs[1..]);
    var at := InsertShifts(xs[0], rest);
    if p > 0 {
      hide Before, Insert;
      var a, b := TiesKeepOrder(xs[1..], p - 1, q - 1);
      i, j := if a < at then a else a + 1, if b < at then b else b + 1;
    } else {
      var y := xs[q];
      assert y == xs[1..][q - 1];
      assert y in multiset(rest) by { assert y in multiset(xs[1..]); }
      var k :| 0 <= k < |rest| && rest[k] == y;
      assert !Before(y, xs[0]);
      i, j := at, k + 1;
    }
  }

  lemma {:induction false} ApplicablePositions(backends: seq<Backend>, n: nat, p: nat, q: nat, model: string) returns (a: nat, b: nat)
    requires p < q < n <= |backends|
    requires PreferenceOf(backends[p], model).Preferred? && PreferenceOf(backends[q], model).Preferred?
    ensures a < b < |Applicable(backends, n, model)|
    ensures Applicable(backends, n, model)[a].backend == backends[p] && Applicable(backends, n, model)[b].backend == backends[q]
    ensures var x := Applicable(backends, n, model)[a]; PreferenceOf(backends[p], model) == Preferred(x.score, x.priority)
    ensures var y := Applicable(backends, n, model)[b]; PreferenceOf(backends[q], model) == Preferred(y.score, y.priority)
  {
    hide PreferenceOf;
    if q < n - 1 {
      a, b := ApplicablePositions(backends, n - 1, p, q, model);
    } else {
      var x := PreferenceOf(backends[p], model);
      PreferredIsApplicable(backends, q, p, model);
      a :| 0 <= a < |Applicable(backends, q, model)| && Applicable(backends, q, model)[a] == Ranked(backends[p], x.score, x.priority);
      b := |Applicable(backends, q, model)|;
    }
  }

  /** Backends that tie in everything are ranked in the order of their configuration. */
  lemma TiedBackendsKeepOrder(backends: seq<Backend>, model: string, p: nat, q: nat) returns (i: nat, j: nat)
    requires p < q < |backends| && backends[p].priority == backends[q].priority
    requires PreferenceOf(backends[p], Normalize(model)).Preferred?
    requires PreferenceOf(backends[p], Normalize(model)) == PreferenceOf(backends[q], Normalize(model))
    ensures i < j < |RankedBackends(backends, model)|
    ensures RankedBackends(backends, model)[i] == backends[p] && RankedBackends(backends, model)[j] == backends[q]
  {
    hide PreferenceOf, Normalize, StableSort, Applicable;
    var normalized := Normalize(model);
    var a, b := ApplicablePositions(backends, |backends|, p, q, normalized);
    i, j := TiesKeepOrder(Applicable(backends, |backends|, normalized), a, b);
  }
}
