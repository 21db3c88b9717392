/** Which backends a request may use, and in what order (internal/provider/router/chat.go). */
module Ranking {
  import opened Text

  /** The largest value of Go's int. A rule with this priority counts as absent. */
  const MAX_INT := 0x7FFF_FFFF_FFFF_FFFF

  datatype RouteRule = RouteRule(model: string, priority: int)

  datatype Backend = Backend(
    name: string, priority: int, models: seq<string>, routeRules: seq<RouteRule>, firstEventTimeout: int)

  datatype Preference = NotApplicable | Preferred(score: int, priority: int)

  datatype Ranked = Ranked(backend: Backend, score: int, priority: int)

  // ---- Preferences ----

  predicate RuleMatches(rule: RouteRule, model: string) {
    Normalize(rule.model) == model
  }

  /** The lowest priority below MAX_INT among the first n rules for model, or MAX_INT. */
  function LowestPriority(rules: seq<RouteRule>, n: nat, model: string): int
    requires n <= |rules|
  {
    if n == 0 then MAX_INT
    else
      var p := LowestPriority(rules, n - 1, model);
      if RuleMatches(rules[n - 1], model) && rules[n - 1].priority < p then rules[n - 1].priority else p
  }

  lemma {:induction false} LowestPriorityIsLowest(rules: seq<RouteRule>, n: nat, model: string)
    requires n <= |rules|
    ensures
      var p := LowestPriority(rules, n, model);
      && p <= MAX_INT
      && (forall i :: 0 <= i < n && RuleMatches(rules[i], model) ==> p <= rules[i].priority)
      && (p < MAX_INT ==> exists i :: 0 <= i < n && RuleMatches(rules[i], model) && rules[i].priority == p)
  {
    hide RuleMatches;
    if n > 0 {
      LowestPriorityIsLowest(rules, n - 1, model);
    }
  }

  /** A rule for the model itself wins over a rule for any model. */
  function RulePreference(rules: seq<RouteRule>, model: string): Preference {
    var exact, generic := LowestPriority(rules, |rules|, model), LowestPriority(rules, |rules|, "");
    if model != "" && exact != MAX_INT then Preferred(2, exact)
    else if generic != MAX_INT then Preferred(1, generic)
    else NotApplicable
  }

  predicate Serves(models: seq<string>, model: string) {
    exists i :: 0 <= i < |models| && EqualFold(Trim(models[i]), model)
  }

  /** Without rules a backend is always applicable; the models it lists only move its score. */
  function ModelPreference(b: Backend, model: string): (p: Preference)
    ensures p.Preferred?
  {
    if model == "" || b.models == [] then Preferred(1, b.priority)
    else if Serves(b.models, model) then Preferred(2, b.priority)
    else Preferred(0, b.priority)
  }

  function PreferenceOf(b: Backend, model: string): Preference {
    if b.routeRules != [] then RulePreference(b.routeRules, model) else ModelPreference(b, model)
  }

  method RouteRulePreference(rules: seq<RouteRule>, normalizedModel: string) returns (p: Preference)
    ensures p == RulePreference(rules, normalizedModel)
  {
    hide Normalize;
    var exactPriority := MAX_INT;
    var genericPriority := MAX_INT;
    for i := 0 to |rules|
      invariant genericPriority == LowestPriority(rules, i, "")
      invariant normalizedModel != "" ==> exactPriority == LowestPriority(rules, i, normalizedModel)
    {
      var model := Normalize(rules[i].model);
      if model == "" {
        if rules[i].priority < genericPriority {
          genericPriority := rules[i].priority;
        }
      } else if model == normalizedModel {
        if rules[i].priority < exactPriority {
          exactPriority := rules[i].priority;
        }
      }
    }
    if normalizedModel != "" && exactPriority != MAX_INT {
      return Preferred(2, exactPriority);
    }
    if genericPriority != MAX_INT {
      return Preferred(1, genericPriority);
    }
    return NotApplicable;
  }

  method BackendPreference(backend: Backend, normalizedModel: string) returns (p: Preference)
    ensures p == PreferenceOf(backend, normalizedModel)
  {
    hide EqualFold, Trim, RulePreference;
    if |backend.routeRules| > 0 {
      p := RouteRulePreference(backend.routeRules, normalizedModel);
      return;
    }
    if normalizedModel == "" || |backend.models| == 0 {
      return Preferred(1, backend.priority);
    }
    for i := 0 to |backend.models|
      invariant forall j :: 0 <= j < i ==> !EqualFold(Trim(backend.models[j]), normalizedModel)
    {
      if EqualFold(Trim(backend.models[i]), normalizedModel) {
        return Preferred(2, backend.priority);
      }
    }
    return Preferred(0, backend.priority);
  }

  // ---- Stable sorting ----

  /** a comes strictly before b: score descending, then priority, then backend priority. */
  predicate Before(a: Ranked, b: Ranked) {
    if a.score != b.score then a.score > b.score
    else if a.priority != b.priority then a.priority < b.priority
    else a.backend.priority < b.backend.priority
  }

  predicate SameKey(a: Ranked, b: Ranked) {
    a.score == b.score && a.priority == b.priority && a.backend.priority == b.backend.priority
  }

  predicate Sorted(xs: seq<Ranked>) {
    xs == [] || (Sorted(xs[1..]) && forall y :: y in xs[1..] ==> !Before(y, xs[0]))
  }

  function Insert(x: Ranked, ys: seq<Ranked>): (r: seq<Ranked>)
    ensures multiset(r) == multiset{x} + multiset(ys)
  {
    if ys == [] || !Before(ys[0], x) then [x] + ys
    else
      assert ys == [ys[0]] + ys[1..];
      [ys[0]] + Insert(x, ys[1..])
  }

  /** sort.SliceStable under Before. */
  function StableSort(xs: seq<Ranked>): (r: seq<Ranked>)
    ensures multiset(r) == multiset(xs)
  {
    if xs == [] then []
    else
      assert xs == [xs[0]] + xs[1..];
      Insert(xs[0], StableSort(xs[1..]))
  }

  function Filter(p: Ranked -> bool, xs: seq<Ranked>): seq<Ranked> {
    if xs == [] then []
    else (if p(xs[0]) then [xs[0]] else []) + Filter(p, xs[1..])
  }

  lemma Member(x: Ranked, xs: seq<Ranked>)
    ensures x in multiset(xs) <==> x in xs
  {
  }

  lemma {:induction false} InsertSorted(x: Ranked, ys: seq<Ranked>)
    requires Sorted(ys)
    ensures Sorted(Insert(x, ys))
  {
    if ys == [] {
      assert [x][1..] == [];
    } else if !Before(ys[0], x) {
      var r := [x] + ys;
      assert r[1..] == ys;
      assert forall y :: y in ys ==> y == ys[0] || y in ys[1..];
    } else {
      InsertSorted(x, ys[1..]);
      var rest := Insert(x, ys[1..]);
      var r := [ys[0]] + rest;
      assert r[1..] == rest;
      forall y | y in rest ensures !Before(y, ys[0]) {
        Member(y, rest);
        Member(y, ys[1..]);
      }
    }
  }

  lemma {:induction false} SortSorts(xs: seq<Ranked>)
    ensures Sorted(StableSort(xs))
  {
    hide Insert, Sorted;
    if xs == [] {
      assert Sorted(StableSort(xs)) by { EmptySorted(); }
    } else {
      SortSorts(xs[1..]);
      InsertSorted(xs[0], StableSort(xs[1..]));
    }
  }

  lemma EmptySorted()
    ensures Sorted([])
  {
  }

  lemma {:induction false} FilterMembers(p: Ranked -> bool, xs: seq<Ranked>)
    ensures forall y :: y in Filter(p, xs) <==> y in xs && p(y)
  {
    if xs != [] {
      FilterMembers(p, xs[1..]);
      assert xs == [xs[0]] + xs[1..];
    }
  }

  lemma FilterHead(p: Ranked -> bool, x: Ranked, rest: seq<Ranked>)
    ensures Filter(p, [x] + rest) == (if p(x) then [x] else []) + Filter(p, rest)
  {
    assert ([x] + rest)[1..] == rest;
  }

  lemma InsertInFront(x: Ranked, ys: seq<Ranked>)
    requires forall y :: y in ys ==> !Before(y, x)
    ensures Insert(x, ys) == [x] + ys
  {
  }

  lemma InsertBehind(x: Ranked, y: Ranked, ys: seq<Ranked>)
    requires Before(y, x)
    ensures Insert(x, [y] + ys) == [y] + Insert(x, ys)
  {
    assert ([y] + ys)[1..] == ys;
  }

  lemma {:induction false} FilterInsert(p: Ranked -> bool, x: Ranked, ys: seq<Ranked>)
    requires Sorted(ys)
    ensures Filter(p, Insert(x, ys)) == if p(x) then Insert(x, Filter(p, ys)) else Filter(p, ys)
  {
    if ys == [] || !Before(ys[0], x) {
      FilterHead(p, x, ys);
      FilterMembers(p, ys);
      if p(x) {
        forall y | y in Filter(p, ys) ensures !Before(y, x) {
          NoneBefore(x, ys, y);
        }
        InsertInFront(x, Filter(p, ys));
      } else {
        assert [] + Filter(p, ys) == Filter(p, ys);
      }
    } else {
      var y, rest := ys[0], ys[1..];
      assert ys == [y] + rest;
      FilterInsert(p, x, rest);
      FilterHead(p, y, Insert(x, rest));
      FilterHead(p, y, rest);
      if p(x) && p(y) {
        InsertBehind(x, y, Filter(p, rest));
      } else if p(x) {
        assert [] + Insert(x, Filter(p, rest)) == Insert(x, Filter(p, rest));
        assert [] + Filter(p, rest) == Filter(p, rest);
      }
    }
  }

  lemma NoneBefore(x: Ranked, ys: seq<Ranked>, y: Ranked)
    requires Sorted(ys) && y in ys && !Before(ys[0], x)
    ensures !Before(y, x)
  {
    assert ys == [ys[0]] + ys[1..];
  }

  /** Sorting commutes with dropping elements. */
  lemma {:induction false} SortCommutesWithFilter(p: Ranked -> bool, xs: seq<Ranked>)
    ensures Filter(p, StableSort(xs)) == StableSort(Filter(p, xs))
  {
    hide Insert, Sorted;
    if xs != [] {
      var x, rest := xs[0], xs[1..];
      SortSorts(rest);
      FilterInsert(p, x, StableSort(rest));
      SortCommutesWithFilter(p, rest);
      if p(x) {
        assert Filter(p, xs) == [x] + Filter(p, rest);
        assert Filter(p, xs)[1..] == Filter(p, rest);
      } else {
        assert Filter(p, xs) == Filter(p, rest);
      }
    }
  }

  /** Elements with equal keys are not moved past each other. */
  lemma {:induction false} SortOfEqualKeys(k: Ranked, xs: seq<Ranked>)
    requires forall x :: x in xs ==> SameKey(x, k)
    ensures StableSort(xs) == xs
  {
    if xs != [] {
      assert xs == [xs[0]] + xs[1..];
      SortOfEqualKeys(k, xs[1..]);
      assert SameKey(xs[0], k);
      forall y | y in xs[1..] ensures !Before(y, xs[0]) {
        assert SameKey(y, k);
      }
      InsertInFront(xs[0], xs[1..]);
    }
  }

  function WithKey(k: Ranked, xs: seq<Ranked>): seq<Ranked> {
    Filter(x => SameKey(x, k), xs)
  }

  /** Sorting is stable: for each key, the elements with that key keep their order. */
  lemma SortIsStable(k: Ranked, xs: seq<Ranked>)
    ensures WithKey(k, StableSort(xs)) == WithKey(k, xs)
  {
    var p := (x: Ranked) => SameKey(x, k);
    SortCommutesWithFilter(p, xs);
    FilterMembers(p, xs);
    SortOfEqualKeys(k, Filter(p, xs));
  }

  /** Being sorted and stable leaves no choice, so StableSort is the only such function. */
  lemma {:induction false} StableSortIsUnique(a: seq<Ranked>, b: seq<Ranked>)
    requires Sorted(a) && Sorted(b)
    requires forall k :: WithKey(k, a) == WithKey(k, b)
    ensures a == b
  {
    if a == [] {
      KeyOfHead(b);
    } else if b == [] {
      KeyOfHead(a);
    } else {
      HeadFromKeys(a, b);
      HeadFromKeys(b, a);
      var k := a[0];
      assert WithKey(k, a)[0] == a[0] && WithKey(k, b)[0] == b[0];
      forall k ensures WithKey(k, a[1..]) == WithKey(k, b[1..]) {
        var head := if SameKey(a[0], k) then [a[0]] else [];
        assert WithKey(k, a) == head + WithKey(k, a[1..]);
        assert WithKey(k, b) == head + WithKey(k, b[1..]);
        assert WithKey(k, a)[|head|..] == WithKey(k, a[1..]);
        assert WithKey(k, b)[|head|..] == WithKey(k, b[1..]);
      }
      StableSortIsUnique(a[1..], b[1..]);
      assert a == [a[0]] + a[1..] && b == [b[0]] + b[1..];
    }
  }

  lemma KeyOfHead(b: seq<Ranked>)
    ensures b != [] ==> WithKey(b[0], b) != []
    ensures forall k :: WithKey(k, []) == []
  {
  }

  lemma HeadFromKeys(a: seq<Ranked>, b: seq<Ranked>)
    requires a != [] && b != [] && Sorted(a) && Sorted(b)
    requires forall k :: WithKey(k, a) == WithKey(k, b)
    ensures !Before(a[0], b[0])
  {
    var p := (x: Ranked) => SameKey(x, a[0]);
    assert WithKey(a[0], a)[0] == a[0];
    FilterMembers(p, b);
    assert a[0] in WithKey(a[0], b);
    assert b == [b[0]] + b[1..];
  }

  // ---- Ranking ----

  /** The applicable ones of the first n backends, in order, with their preferences. */
  function Applicable(backends: seq<Backend>, n: nat, model: string): seq<Ranked>
    requires n <= |backends|
  {
    if n == 0 then []
    else
      var front := Applicable(backends, n - 1, model);
      match PreferenceOf(backends[n - 1], model)
      case NotApplicable => front
      case Preferred(score, priority) => front + [Ranked(backends[n - 1], score, priority)]
  }

  function Backends(ranked: seq<Ranked>): (r: seq<Backend>)
    ensures |r| == |ranked|
    ensures forall i :: 0 <= i < |ranked| ==> r[i] == ranked[i].backend
  {
    seq(|ranked|, i requires 0 <= i < |ranked| => ranked[i].backend)
  }

  function RankedItems(backends: seq<Backend>, model: string): seq<Ranked> {
    StableSort(Applicable(backends, |backends|, Normalize(model)))
  }

  function RankedBackends(backends: seq<Backend>, model: string): seq<Backend> {
    Backends(RankedItems(backends, model))
  }

  method RankBackends(backends: seq<Backend>, model: string) returns (result: seq<Backend>)
    ensures result == RankedBackends(backends, model)
  {
    hide PreferenceOf, Normalize, Insert;
    var normalizedModel := Normalize(model);
    var ranked: seq<Ranked> := [];
    for i := 0 to |backends|
      invariant ranked == Applicable(backends, i, normalizedModel)
    {
      var p := BackendPreference(backends[i], normalizedModel);
      if p.NotApplicable? {
        continue;
      }
      ranked := ranked + [Ranked(backends[i], p.score, p.priority)];
    }
    if |ranked| <= 1 {
      ShortIsSorted(ranked);
    } else {
      ranked := StableSort(ranked);
    }
    result := [];
    for i := 0 to |ranked|
      invariant result == Backends(ranked)[..i]
    {
      result := result + [ranked[i].backend];
    }
  }

  lemma ShortIsSorted(xs: seq<Ranked>)
    requires |xs| <= 1
    ensures StableSort(xs) == xs
  {
    if xs != [] {
      assert xs[1..] == [];
    }
  }

  lemma {:induction false} ApplicableMembers(backends: seq<Backend>, n: nat, model: string)
    requires n <= |backends|
    ensures forall r :: r in Applicable(backends, n, model) ==>
              exists i :: 0 <= i < n && backends[i] == r.backend && PreferenceOf(backends[i], model) == Preferred(r.score, r.priority)
  {
    hide PreferenceOf;
    if n > 0 {
      ApplicableMembers(backends, n - 1, model);
    }
  }

  /** A ranking holds exactly the applicable backends, sorted by score, rule priority and backend
      priority, with ties in configuration order; and nothing else does. */
  lemma RankingIsTheStableSort(backends: seq<Backend>, model: string, other: seq<Ranked>)
    ensures
      var applicable := Applicable(backends, |backends|, Normalize(model));
      var items := RankedItems(backends, model);
      && multiset(items) == multiset(applicable)
      && Sorted(items)
      && (forall k :: WithKey(k, items) == WithKey(k, applicable))
      && (Sorted(other) && (forall k :: WithKey(k, other) == WithKey(k, applicable)) ==> other == items)
  {
    hide StableSort, Sorted, WithKey, Applicable, Normalize;
    var applicable := Applicable(backends, |backends|, Normalize(model));
    SortSorts(applicable);
    forall k ensures WithKey(k, StableSort(applicable)) == WithKey(k, applicable) {
      SortIsStable(k, applicable);
    }
    if Sorted(other) && (forall k :: WithKey(k, other) == WithKey(k, applicable)) {
      StableSortIsUnique(other, StableSort(applicable));
    }
  }
}
