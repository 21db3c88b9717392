/** Seeding the route rules from the configuration and applying them again: what this keeps of the
    routing, for every configuration and every model. */
module Seeding {
  import opened Wrappers
  import opened Text
  import opened Ranking
  import opened RoutePolicy

  /** What seeding must not lose for this backend and this (normalised) model: either the
      configuration already ranks the backend last (score 0), or its priority is a real one and it
      lists no models or lists this very model. */
  predicate SeedSafe(b: Backend, model: string) {
    || ModelPreference(b, model).score == 0
    || (b.priority < MAX_INT && (b.models == [] || (model != "" && model in b.models)))
  }

  /** The backends that a configuration builds, and a rules table that holds exactly the seeds, in
      any order and any number of times. */
  ghost predicate Seeded(cfg: Config, bs: seq<Backend>, rules: seq<RouteRuleRecord>) {
    var endpoints := ConfiguredEndpoints(cfg);
    && Built(endpoints, bs) && DistinctNames(bs)
    && (forall r :: r in rules <==> r in Seeds(endpoints, |endpoints|))
  }

  function SeedModels(b: Backend): seq<string> {
    if b.models == [] then [""] else b.models
  }

  // ---- The rules a backend gets back ----

  lemma NameEndsInRole(kind: string, role: string)
    requires Trimmed(kind) && kind != "" && role != "" && !IsSpace(role[|role| - 1])
    ensures Trimmed(kind + "-" + role)
  {
    var name := kind + "-" + role;
    assert name[0] == kind[0] && name[|name| - 1] == role[|role| - 1];
  }

  lemma RolesEndInText(cfg: Config, i: nat)
    requires i < |ConfiguredEndpoints(cfg)|
    ensures
      var role := ConfiguredEndpoints(cfg)[i].role;
      role != "" && !IsSpace(role[|role| - 1])
  {
    if cfg.backends != [] {
      var role := IndexedRole(i);
      assert role[|role| - 1] == ']';
    } else {
      assert "primary"[6] == 'y' && "secondary"[8] == 'y';
    }
  }

  lemma ProviderNamesAreTrimmed(cfg: Config, i: nat)
    requires i < |ConfiguredEndpoints(cfg)|
    ensures Trim(ProviderName(ConfiguredEndpoints(cfg)[i])) == ProviderName(ConfiguredEndpoints(cfg)[i])
  {
    hide Trim, IsSpace, Lower;
    var c := ConfiguredEndpoints(cfg)[i];
    TrimIsTrimmed(c.endpoint.name);
    TrimIsTrimmed(Lower(c.endpoint.kind));
    RolesEndInText(cfg, i);
    if Trim(c.endpoint.name) == "" {
      KindIsTrimmed(c.endpoint);
      NameEndsInRole(ProviderKind(c.endpoint), c.role);
    }
    TrimmedIsFixed(ProviderName(c));
  }

  lemma KindIsTrimmed(e: Endpoint)
    ensures Trimmed(ProviderKind(e)) && ProviderKind(e) != ""
  {
    TrimIsTrimmed(Lower(e.kind));
    assert "mock"[0] == 'm' && "mock"[3] == 'k';
  }

  lemma {:induction false} SeedsMembers(endpoints: seq<Configured>, n: nat, r: RouteRuleRecord)
    requires n <= |endpoints|
    ensures r in Seeds(endpoints, n) <==> exists i :: 0 <= i < n && r in EndpointSeeds(endpoints[i])
  {
    hide EndpointSeeds;
    if n > 0 {
      SeedsMembers(endpoints, n - 1, r);
    }
  }

  lemma {:induction false} RulesForMembers(rules: seq<RouteRuleRecord>, n: nat, name: string, rule: RouteRule)
    requires n <= |rules|
    ensures rule in RulesFor(rules, n, name) <==>
            exists k :: 0 <= k < n && Trim(rules[k].backendName) == name
                        && rule == RouteRule(Normalize(rules[k].model), rules[k].priority)
  {
    hide Trim, Normalize;
    if n > 0 {
      RulesForMembers(rules, n - 1, name, rule);
    }
  }

  lemma BlankIsNormal()
    ensures Normalize("") == ""
  {
    TrimmedIsFixed("");
    assert Lower("") == "";
  }

  lemma SeedModelsAreNormal(c: Configured, b: Backend, model: string)
    requires BuildBackend(c) == Ok(b) && model in SeedModels(b)
    ensures Normalize(model) == model
    ensures b.models != [] ==> model != "" && Trim(model) == model
  {
    hide Normalize, Trim;
    BlankIsNormal();
    ModelNamesAreNormal(c.endpoint.models, |c.endpoint.models|);
  }

  lemma EndpointSeedsOf(c: Configured, b: Backend, r: RouteRuleRecord)
    requires BuildBackend(c) == Ok(b)
    ensures b.routeRules == [] && b.name == ProviderName(c)
    ensures r in EndpointSeeds(c) <==> r.backendName == b.name && r.priority == b.priority && r.model in SeedModels(b)
  {
    hide ProviderName, ModelNames, Trim, ProviderKind;
    var models := SeedModels(b);
    if r.backendName == b.name && r.priority == b.priority && r.model in models {
      var i :| 0 <= i < |models| && models[i] == r.model;
      assert EndpointSeeds(c)[i] == r;
    }
  }

  /** A backend gets back a rule exactly for each model it lists (or one for any model), with its
      own priority. */
  lemma RulesOfBackend(cfg: Config, bs: seq<Backend>, rules: seq<RouteRuleRecord>, i: nat, rule: RouteRule)
    requires Seeded(cfg, bs, rules) && i < |bs|
    ensures rule in RulesFor(rules, |rules|, bs[i].name) <==>
            rule.priority == bs[i].priority && rule.model in SeedModels(bs[i])
  {
    hide Trim, Normalize, BuildBackend, EndpointSeeds, Seeds, RulesFor, SeedModels, ProviderName;
    var endpoints, b := ConfiguredEndpoints(cfg), bs[i];
    RulesForMembers(rules, |rules|, b.name, rule);
    if rule in RulesFor(rules, |rules|, b.name) {
      var k :| 0 <= k < |rules| && Trim(rules[k].backendName) == b.name
               && rule == RouteRule(Normalize(rules[k].model), rules[k].priority);
      assert rules[k] in Seeds(endpoints, |endpoints|);
      SeedsMembers(endpoints, |endpoints|, rules[k]);
      var j :| 0 <= j < |endpoints| && rules[k] in EndpointSeeds(endpoints[j]);
      EndpointSeedsOf(endpoints[j], bs[j], rules[k]);
      ProviderNamesAreTrimmed(cfg, j);
      assert bs[j].name == b.name && j == i;
      SeedModelsAreNormal(endpoints[i], b, rules[k].model);
    }
    if rule.priority == b.priority && rule.model in SeedModels(b) {
      var r := RouteRuleRecord(b.name, rule.model, rule.priority);
      EndpointSeedsOf(endpoints[i], b, r);
      SeedsMembers(endpoints, |endpoints|, r);
      var k :| 0 <= k < |rules| && rules[k] == r;
      ProviderNamesAreTrimmed(cfg, i);
      SeedModelsAreNormal(endpoints[i], b, rule.model);
    }
  }

  /** Seeded rules are never refused: each of them names a configured backend. */
  lemma SeededRulesApply(cfg: Config, bs: seq<Backend>, rules: seq<RouteRuleRecord>)
    requires Seeded(cfg, bs, rules)
    ensures rules != []
    ensures forall i :: 0 <= i < |rules| ==> Trim(rules[i].backendName) != "" && NamesBackend(rules, i, bs)
  {
    hide Trim, BuildBackend, EndpointSeeds, Seeds, ProviderName, ConfiguredEndpoints, NamesBackend;
    var endpoints := ConfiguredEndpoints(cfg);
    forall i | 0 <= i < |rules| ensures Trim(rules[i].backendName) != "" && NamesBackend(rules, i, bs) {
      assert rules[i] in Seeds(endpoints, |endpoints|);
      SeedsMembers(endpoints, |endpoints|, rules[i]);
      var j :| 0 <= j < |endpoints| && rules[i] in EndpointSeeds(endpoints[j]);
      EndpointSeedsOf(endpoints[j], bs[j], rules[i]);
      ProviderNamesAreTrimmed(cfg, j);
      NameIsNotBlank(endpoints[j]);
      NamesBackendAt(rules, i, bs, j);
    }
    SomeEndpoint(cfg);
    var b := bs[0];
    var r := RouteRuleRecord(b.name, SeedModels(b)[0], b.priority);
    EndpointSeedsOf(endpoints[0], b, r);
    SeedsMembers(endpoints, |endpoints|, r);
    assert r in rules;
  }

  lemma SomeEndpoint(cfg: Config)
    ensures |ConfiguredEndpoints(cfg)| > 0
  {
  }

  lemma NameIsNotBlank(c: Configured)
    ensures ProviderName(c) != ""
  {
    hide Trim;
  }

  lemma NamesBackendAt(rules: seq<RouteRuleRecord>, i: nat, bs: seq<Backend>, j: nat)
    requires i < |rules| && j < |bs| && bs[j].name == Trim(rules[i].backendName)
    ensures NamesBackend(rules, i, bs)
  {
    hide Trim;
  }

  // ---- The preference of a rewritten backend ----

  lemma {:induction false} LowestOfUniform(rules: seq<RouteRule>, n: nat, model: string, p: int)
    requires n <= |rules| && forall i :: 0 <= i < |rules| ==> rules[i].priority == p
    ensures LowestPriority(rules, n, model) ==
            if p < MAX_INT && exists i :: 0 <= i < n && RuleMatches(rules[i], model) then p else MAX_INT
  {
    hide RuleMatches;
    if n > 0 {
      LowestOfUniform(rules, n - 1, model, p);
    }
  }

  lemma ServesListed(models: seq<string>, model: string)
    requires model in models && Trim(model) == model
    ensures Serves(models, model)
  {
    hide Trim;
    var i :| 0 <= i < |models| && models[i] == model;
    assert EqualFold(Trim(models[i]), model);
  }

  lemma RuleForModel(own: seq<RouteRule>, b: Backend, c: Configured, model: string)
    requires BuildBackend(c) == Ok(b)
    requires forall rule :: rule in own <==> rule.priority == b.priority && rule.model in SeedModels(b)
    ensures LowestPriority(own, |own|, model) == if b.priority < MAX_INT && model in SeedModels(b) then b.priority else MAX_INT
  {
    hide Normalize, SeedModels, BuildBackend;
    forall i | 0 <= i < |own| ensures own[i].priority == b.priority && (RuleMatches(own[i], model) <==> own[i].model == model) {
      assert own[i] in own;
      SeedModelsAreNormal(c, b, own[i].model);
    }
    LowestOfUniform(own, |own|, model, b.priority);
    if model in SeedModels(b) {
      var rule := RouteRule(model, b.priority);
      assert rule in own;
      var i :| 0 <= i < |own| && own[i] == rule;
      assert RuleMatches(own[i], model);
    }
  }

  /** Rewriting keeps the preference and the priority of a backend that is safe and wanted, and
      makes any other backend inapplicable. */
  lemma RewrittenPreference(own: seq<RouteRule>, b: Backend, c: Configured, model: string)
    requires BuildBackend(c) == Ok(b) && own != []
    requires forall rule :: rule in own <==> rule.priority == b.priority && rule.model in SeedModels(b)
    ensures PreferenceOf(Rewritten(b, own), model) ==
            if SeedSafe(b, model) && ModelPreference(b, model).score != 0 then ModelPreference(b, model) else NotApplicable
    ensures Rewritten(b, own).priority == b.priority && Rewritten(b, own).name == b.name
  {
    hide Trim, LowestPriority, Serves, BuildBackend;
    RuleForModel(own, b, c, model);
    RuleForModel(own, b, c, "");
    if b.models != [] && "" in b.models {
      SeedModelsAreNormal(c, b, "");
    }
    if b.models != [] && model in b.models {
      SeedModelsAreNormal(c, b, model);
      ServesListed(b.models, model);
    }
    UniformPriority(own, b);
  }

  lemma UniformPriority(own: seq<RouteRule>, b: Backend)
    requires own != [] && forall rule :: rule in own ==> rule.priority == b.priority
    ensures MinPriority(own) == b.priority
  {
    var i :| 0 <= i < |own| && own[i].priority == MinPriority(own);
    assert own[i] in own;
  }

  // ---- Aligned lists: the same keys and the same names ----

  predicate Aligned(xs: seq<Ranked>, ys: seq<Ranked>) {
    |xs| == |ys| && forall i :: 0 <= i < |xs| ==> SameKey(xs[i], ys[i]) && xs[i].backend.name == ys[i].backend.name
  }

  lemma AlignedCons(x: Ranked, xs: seq<Ranked>, y: Ranked, ys: seq<Ranked>)
    requires SameKey(x, y) && x.backend.name == y.backend.name && Aligned(xs, ys)
    ensures Aligned([x] + xs, [y] + ys) && Aligned(xs + [x], ys + [y])
  {
  }

  lemma AlignedTail(xs: seq<Ranked>, ys: seq<Ranked>)
    requires Aligned(xs, ys) && xs != []
    ensures Aligned(xs[1..], ys[1..])
  {
  }

  lemma {:induction false} InsertAligned(x: Ranked, xs: seq<Ranked>, y: Ranked, ys: seq<Ranked>)
    requires SameKey(x, y) && x.backend.name == y.backend.name && Aligned(xs, ys)
    ensures Aligned(Insert(x, xs), Insert(y, ys))
  {
    if xs == [] || !Before(xs[0], x) {
      AlignedCons(x, xs, y, ys);
    } else {
      assert SameKey(xs[0], ys[0]);
      AlignedTail(xs, ys);
      InsertAligned(x, xs[1..], y, ys[1..]);
      AlignedCons(xs[0], Insert(x, xs[1..]), ys[0], Insert(y, ys[1..]));
    }
  }

  /** Sorting looks at the keys only. */
  lemma {:induction false} SortAligned(xs: seq<Ranked>, ys: seq<Ranked>)
    requires Aligned(xs, ys)
    ensures Aligned(StableSort(xs), StableSort(ys))
  {
    hide Insert;
    if xs != [] {
      AlignedTail(xs, ys);
      SortAligned(xs[1..], ys[1..]);
      InsertAligned(xs[0], StableSort(xs[1..]), ys[0], StableSort(ys[1..]));
    }
  }

  lemma {:induction false} FilterAppend(p: Ranked -> bool, xs: seq<Ranked>, x: Ranked)
    ensures Filter(p, xs + [x]) == Filter(p, xs) + (if p(x) then [x] else [])
  {
    if xs == [] {
      assert xs + [x] == [x];
      assert [x][1..] == [];
    } else {
      var head, last := if p(xs[0]) then [xs[0]] else [], if p(x) then [x] else [];
      assert (xs + [x])[0] == xs[0] && (xs + [x])[1..] == xs[1..] + [x];
      FilterAppend(p, xs[1..], x);
      assert head + (Filter(p, xs[1..]) + last) == (head + Filter(p, xs[1..])) + last;
    }
  }

  lemma {:induction false} ApplicablePrefix(bs: seq<Backend>, b: Backend, n: nat, model: string)
    requires n <= |bs|
    ensures Applicable(bs + [b], n, model) == Applicable(bs, n, model)
  {
    hide PreferenceOf;
    if n > 0 {
      ApplicablePrefix(bs, b, n - 1, model);
    }
  }

  function Item(b: Backend, p: Preference): seq<Ranked> {
    if p.Preferred? then [Ranked(b, p.score, p.priority)] else []
  }

  lemma ApplicableLast(bs: seq<Backend>, n: nat, model: string)
    requires n < |bs|
    ensures Applicable(bs, n + 1, model) == Applicable(bs, n, model) + Item(bs[n], PreferenceOf(bs[n], model))
  {
    hide PreferenceOf;
  }

  lemma BuiltPreference(c: Configured, b: Backend, model: string)
    requires BuildBackend(c) == Ok(b)
    ensures PreferenceOf(b, model) == ModelPreference(b, model)
  {
    hide ModelPreference, ModelNames, Trim, ProviderName;
  }

  function Survives(model: string): Ranked -> bool {
    (r: Ranked) => r.score != 0 && SeedSafe(r.backend, model)
  }

  lemma {:induction false} RoutedItems(cfg: Config, bs: seq<Backend>, rules: seq<RouteRuleRecord>, n: nat, model: string)
    requires Seeded(cfg, bs, rules) && n <= |bs|
    ensures
      var routed := Routed(bs, n, rules);
      Aligned(Applicable(routed, |routed|, model), Filter(Survives(model), Applicable(bs, n, model)))
  {
    hide Built, PreferenceOf, SeedSafe, Rewritten, RulesFor, SeedModels, ModelPreference, Aligned, BuildBackend, Filter;
    if n == 0 {
      NothingAligned(Survives(model));
    } else {
      RoutedItems(cfg, bs, rules, n - 1, model);
      RoutedStep(cfg, bs, rules, n - 1, model);
    }
  }

  lemma NothingAligned(p: Ranked -> bool)
    ensures Aligned([], Filter(p, []))
  {
  }

  lemma RoutedStep(cfg: Config, bs: seq<Backend>, rules: seq<RouteRuleRecord>, n: nat, model: string)
    requires Seeded(cfg, bs, rules) && n < |bs|
    requires Aligned(Applicable(Routed(bs, n, rules), |Routed(bs, n, rules)|, model),
                     Filter(Survives(model), Applicable(bs, n, model)))
    ensures Aligned(Applicable(Routed(bs, n + 1, rules), |Routed(bs, n + 1, rules)|, model),
                    Filter(Survives(model), Applicable(bs, n + 1, model)))
  {
    hide SeedSafe, RulesFor, Rewritten, ModelPreference, Aligned, BuildBackend, Filter, SeedModels, PreferenceOf, Applicable;
    var b, c, front := bs[n], ConfiguredEndpoints(cfg)[n], Routed(bs, n, rules);
    var own := RulesFor(rules, |rules|, b.name);
    BackendGetsRules(cfg, bs, rules, n);
    RewrittenPreference(own, b, c, model);
    BuiltPreference(c, b, model);
    var before, p := Applicable(bs, n, model), ModelPreference(b, model);
    var item := Ranked(b, p.score, p.priority);
    ApplicableLast(bs, n, model);
    FilterAppend(Survives(model), before, item);
    var routed := front + [Rewritten(b, own)];
    ApplicablePrefix(front, Rewritten(b, own), |front|, model);
    ApplicableLast(routed, |front|, model);
    if p.score != 0 && SeedSafe(b, model) {
      AlignedCons(Ranked(Rewritten(b, own), p.score, p.priority), Applicable(front, |front|, model),
                  item, Filter(Survives(model), before));
    } else {
      assert Filter(Survives(model), before) + [] == Filter(Survives(model), before);
      assert Applicable(front, |front|, model) + [] == Applicable(front, |front|, model);
    }
  }

  lemma BackendGetsRules(cfg: Config, bs: seq<Backend>, rules: seq<RouteRuleRecord>, i: nat)
    requires Seeded(cfg, bs, rules) && i < |bs|
    ensures
      var own := RulesFor(rules, |rules|, bs[i].name);
      && own != []
      && forall rule :: rule in own <==> rule.priority == bs[i].priority && rule.model in SeedModels(bs[i])
  {
    hide Seeded, RulesFor;
    var own := RulesFor(rules, |rules|, bs[i].name);
    forall rule ensures rule in own <==> rule.priority == bs[i].priority && rule.model in SeedModels(bs[i]) {
      RulesOfBackend(cfg, bs, rules, i, rule);
    }
    assert RouteRule(SeedModels(bs[i])[0], bs[i].priority) in own;
  }

  // ---- The theorems ----

  function Names(bs: seq<Backend>): (names: seq<string>)
    ensures |names| == |bs|
  {
    seq(|bs|, i requires 0 <= i < |bs| => bs[i].name)
  }

  function Wanted(r: Ranked): bool {
    r.score != 0
  }

  /** The configuration's own ranking, without the backends it ranks with score 0. */
  function WantedRanking(bs: seq<Backend>, model: string): seq<Backend> {
    Backends(Filter(Wanted, RankedItems(bs, model)))
  }

  lemma AlignedNames(xs: seq<Ranked>, ys: seq<Ranked>)
    requires Aligned(xs, ys)
    ensures Names(Backends(xs)) == Names(Backends(ys))
  {
  }

  /** For every model, the seeded rules rank exactly the wanted backends that are safe, in the
      configuration's order. */
  lemma SeededRanking(cfg: Config, bs: seq<Backend>, rules: seq<RouteRuleRecord>, model: string)
    requires Seeded(cfg, bs, rules)
    ensures Names(RankedBackends(Routed(bs, |bs|, rules), model)) ==
            Names(Backends(Filter(Survives(Normalize(model)), RankedItems(bs, model))))
  {
    hide Seeded, Survives, Normalize, Aligned, Filter, StableSort, Applicable, Routed;
    var normalized := Normalize(model);
    var routed := Routed(bs, |bs|, rules);
    RoutedItems(cfg, bs, rules, |bs|, normalized);
    SortAligned(Applicable(routed, |routed|, normalized), Filter(Survives(normalized), Applicable(bs, |bs|, normalized)));
    SortCommutesWithFilter(Survives(normalized), Applicable(bs, |bs|, normalized));
    AlignedNames(RankedItems(routed, model), Filter(Survives(normalized), RankedItems(bs, model)));
  }

  lemma {:induction false} FilterLength(p: Ranked -> bool, q: Ranked -> bool, xs: seq<Ranked>)
    requires forall x :: q(x) ==> p(x)
    ensures |Filter(q, xs)| <= |Filter(p, xs)|
    ensures (forall x :: x in xs && p(x) ==> q(x)) ==> Filter(q, xs) == Filter(p, xs)
    ensures (exists x :: x in xs && p(x) && !q(x)) ==> |Filter(q, xs)| < |Filter(p, xs)|
  {
    if xs != [] {
      FilterLength(p, q, xs[1..]);
      assert xs == [xs[0]] + xs[1..];
    }
  }

  lemma {:induction false} AllApplicable(cfg: Config, bs: seq<Backend>, n: nat, model: string, r: Ranked)
    requires Built(ConfiguredEndpoints(cfg), bs) && n <= |bs|
    ensures r in Applicable(bs, n, model) <==>
            exists i :: 0 <= i < n && bs[i] == r.backend && ModelPreference(bs[i], model) == Preferred(r.score, r.priority)
  {
    hide ModelPreference, BuildBackend, PreferenceOf, ConfiguredEndpoints;
    if n > 0 {
      AllApplicable(cfg, bs, n - 1, model, r);
      BuiltPreference(ConfiguredEndpoints(cfg)[n - 1], bs[n - 1], model);
      ApplicableLast(bs, n - 1, model);
    }
  }

  /** Seeding preserves the routing of a model (the rules give the configuration's ranking without
      its score-0 backends) if and only if every backend is safe for that model. */
  lemma SeedingPreservesRouting(cfg: Config, bs: seq<Backend>, rules: seq<RouteRuleRecord>, model: string)
    requires Seeded(cfg, bs, rules)
    ensures Names(RankedBackends(Routed(bs, |bs|, rules), model)) == Names(WantedRanking(bs, model))
            <==> forall b :: b in bs ==> SeedSafe(b, Normalize(model))
  {
    hide Normalize, Filter, SeedSafe, ModelPreference, Routed, StableSort;
    var normalized, items := Normalize(model), RankedItems(bs, model);
    SeededRanking(cfg, bs, rules, model);
    FilterLength(Wanted, Survives(normalized), items);
    forall b ensures b in bs && !SeedSafe(b, normalized) <==>
                     exists r :: r in items && Wanted(r) && !Survives(normalized)(r) && r.backend == b {
      UnsafeItems(cfg, bs, model, b);
    }
  }

  lemma UnsafeItems(cfg: Config, bs: seq<Backend>, model: string, b: Backend)
    requires Built(ConfiguredEndpoints(cfg), bs)
    ensures b in bs && !SeedSafe(b, Normalize(model)) <==>
            exists r :: r in RankedItems(bs, model) && Wanted(r) && !Survives(Normalize(model))(r) && r.backend == b
  {
    hide Built, Normalize, BuildBackend;
    var normalized, items := Normalize(model), RankedItems(bs, model);
    forall r ensures r in items <==> r in Applicable(bs, |bs|, normalized) {
      Member(r, items);
      Member(r, Applicable(bs, |bs|, normalized));
    }
    var p := ModelPreference(b, normalized);
    var own := Ranked(b, p.score, p.priority);
    AllApplicable(cfg, bs, |bs|, normalized, own);
    if r :| r in items && Wanted(r) && !Survives(normalized)(r) && r.backend == b {
      AllApplicable(cfg, bs, |bs|, normalized, r);
    }
  }

  // ---- What is lost ----

  /** The configuration ranks b for the model. */
  predicate RankedBefore(bs: seq<Backend>, model: string, b: Backend) {
    b.name in Names(WantedRanking(bs, model))
  }

  predicate RankedAfter(bs: seq<Backend>, rules: seq<RouteRuleRecord>, model: string, b: Backend) {
    b.name in Names(RankedBackends(Routed(bs, |bs|, rules), model))
  }

  lemma NamedIn(items: seq<Ranked>, name: string)
    ensures name in Names(Backends(items)) <==> exists r :: r in items && r.backend.name == name
  {
    if name in Names(Backends(items)) {
      var i :| 0 <= i < |items| && Names(Backends(items))[i] == name;
      assert items[i] in items;
    }
    if r :| r in items && r.backend.name == name {
      var i :| 0 <= i < |items| && items[i] == r;
      assert Names(Backends(items))[i] == name;
    }
  }

  /** Which of the configuration's items a backend has: its own, and no other. */
  lemma OwnItem(cfg: Config, bs: seq<Backend>, model: string, b: Backend, r: Ranked)
    requires Built(ConfiguredEndpoints(cfg), bs) && DistinctNames(bs) && b in bs && r.backend.name == b.name
    ensures r in RankedItems(bs, model) <==>
            r == Ranked(b, ModelPreference(b, Normalize(model)).score, ModelPreference(b, Normalize(model)).priority)
  {
    hide Built, Normalize, BuildBackend, ModelPreference;
    var items := RankedItems(bs, model);
    Member(r, items);
    Member(r, Applicable(bs, |bs|, Normalize(model)));
    AllApplicable(cfg, bs, |bs|, Normalize(model), r);
  }

  /** Seeding loses exactly the backends that are not safe: they are ranked before it, and not after. */
  lemma UnsafeIsLost(cfg: Config, bs: seq<Backend>, rules: seq<RouteRuleRecord>, model: string, b: Backend)
    requires Seeded(cfg, bs, rules) && b in bs
    ensures RankedBefore(bs, model, b) && !RankedAfter(bs, rules, model, b) <==> !SeedSafe(b, Normalize(model))
  {
    hide Normalize, ModelPreference, Routed, StableSort, SeedSafe, Seeded, Built, BuildBackend, Applicable;
    var normalized, items := Normalize(model), RankedItems(bs, model);
    SeedingParts(cfg, bs, rules);
    SeededRanking(cfg, bs, rules, model);
    NamedIn(Filter(Wanted, items), b.name);
    NamedIn(Filter(Survives(normalized), items), b.name);
    FilterMembers(Wanted, items);
    FilterMembers(Survives(normalized), items);
    var own := Ranked(b, ModelPreference(b, normalized).score, ModelPreference(b, normalized).priority);
    forall r: Ranked | r.backend.name == b.name ensures r in items <==> r == own {
      OwnItem(cfg, bs, model, b, r);
    }
    assert SeedSafe(b, normalized) <==> !Wanted(own) || Survives(normalized)(own) by { SafeItem(b, normalized, own); }
  }

  lemma SeedingParts(cfg: Config, bs: seq<Backend>, rules: seq<RouteRuleRecord>)
    requires Seeded(cfg, bs, rules)
    ensures Built(ConfiguredEndpoints(cfg), bs) && DistinctNames(bs)
  {
  }

  lemma SafeItem(b: Backend, model: string, own: Ranked)
    requires own == Ranked(b, ModelPreference(b, model).score, ModelPreference(b, model).priority)
    ensures SeedSafe(b, model) <==> !Wanted(own) || Survives(model)(own)
  {
  }

  // ---- For which models every configuration is safe ----

  /** No character of s shares its folding class with another lower-case one. */
  ghost predicate FoldsAlone(s: string) {
    forall i, c :: 0 <= i < |s| && FoldChar(c) == FoldChar(s[i]) && LowerChar(c) == c ==> c == s[i]
  }

  lemma ListedModelsAreNormal(c: Configured, b: Backend, m: string)
    requires BuildBackend(c) == Ok(b) && m in b.models
    ensures Trim(m) == m && Lower(m) == m
  {
    hide Trim, Lower, Normalize;
    ModelNamesAreNormal(c.endpoint.models, |c.endpoint.models|);
  }

  /** No listed name uses another character of the same folding class as one of the model's. */
  ghost predicate SpelledAlike(models: seq<string>, model: string) {
    forall m, i, j :: m in models && 0 <= i < |m| && 0 <= j < |model| && FoldChar(m[i]) == FoldChar(model[j]) ==> m[i] == model[j]
  }

  /** A real priority, a model that is not blank, and names that are spelled alike: seeding is safe. */
  lemma OrdinaryConfigurationsAreSafe(c: Configured, b: Backend, model: string)
    requires BuildBackend(c) == Ok(b) && b.priority < MAX_INT
    requires Normalize(model) != "" && SpelledAlike(b.models, Normalize(model))
    ensures SeedSafe(b, Normalize(model))
  {
    hide BuildBackend, Normalize, Trim, Lower;
    var normalized := Normalize(model);
    if b.models != [] && Serves(b.models, normalized) {
      var i :| 0 <= i < |b.models| && EqualFold(Trim(b.models[i]), normalized);
      ListedModelsAreNormal(c, b, b.models[i]);
      assert b.models[i] == normalized;
    }
  }

  predicate Ascii(s: string) {
    forall i :: 0 <= i < |s| ==> s[i] as int < 128
  }

  /** In ASCII all names are: a configuration whose models are ASCII is safe for every ASCII model. */
  lemma AsciiConfigurationsAreSafe(c: Configured, b: Backend, model: string)
    requires BuildBackend(c) == Ok(b) && b.priority < MAX_INT
    requires Normalize(model) != "" && Ascii(Normalize(model)) && forall m :: m in b.models ==> Ascii(m)
    ensures SeedSafe(b, Normalize(model))
  {
    hide BuildBackend, Normalize, SeedSafe;
    var normalized := Normalize(model);
    NormalizeIdempotent(model);
    LowerIsLower(normalized);
    assert Lawful(LETTERS);
    forall m, i, j | m in b.models && 0 <= i < |m| && 0 <= j < |normalized| && FoldChar(m[i]) == FoldChar(normalized[j])
      ensures m[i] == normalized[j]
    {
      ListedModelsAreNormal(c, b, m);
      LowerIsLower(m);
      assert AsciiLower(m[i]) == AsciiLower(normalized[j]);
    }
    OrdinaryConfigurationsAreSafe(c, b, model);
  }

  lemma LowerIsLower(s: string)
    requires Lower(s) == s
    ensures forall i :: 0 <= i < |s| ==> LowerChar(s[i]) == s[i]
  {
    assert forall i :: 0 <= i < |s| ==> Lower(s)[i] == LowerChar(s[i]);
  }

  /** An endpoint that lists one model, by a name that is already normal. */
  function Listing(m: string): Endpoint {
    Endpoint("a", "mock", 0, [m], "", 0)
  }

  lemma ListingBuilds(role: string, m: string)
    requires m != "" && Normalize(m) == m
    ensures BuildBackend(Configured(role, Listing(m))) == Ok(Backend("a", 0, [m], [], 0))
  {
    hide Normalize, Trim;
    MockIsMock();
    assert ModelNames([m], 0) == [];
    assert ModelNames([m], 1) == [m];
  }

  lemma MockIsMock()
    ensures Normalize("mock") == "mock" && Trim("a") == "a"
  {
    assert Lawful(LETTERS);
    var s := "mock";
    forall i | 0 <= i < |s| ensures Lower(s)[i] == s[i] {
      assert s[i] in {'m', 'o', 'c', 'k'};
    }
    assert Lower(s) == s;
    assert s[0] == 'm' && s[3] == 'k';
    TrimmedIsFixed(s);
    assert "a"[0] == 'a';
    TrimmedIsFixed("a");
  }

  /** The spelling of a model with one character replaced by another of its folding class. */
  lemma Respelled(model: string, i: nat, c: char)
    requires Normalize(model) == model && i < |model|
    requires FoldChar(c) == FoldChar(model[i]) && LowerChar(c) == c && c != model[i]
    ensures
      var m := model[i := c];
      m != "" && m != model && Normalize(m) == m && EqualFold(Trim(m), model)
  {
    hide Trim, IsSpace, LowerChar, FoldChar;
    var m := model[i := c];
    NormalizeIdempotent(model);
    LowerIsLower(model);
    assert m[i] == c;
    assert Lower(m) == m;
    TrimIsTrimmed(Lower(model));
    StaysTrimmed(model, i, c);
    TrimmedIsFixed(m);
  }

  lemma StaysTrimmed(s: string, i: nat, c: char)
    requires Trimmed(s) && i < |s| && FoldChar(c) == FoldChar(s[i])
    ensures Trimmed(s[i := c])
  {
    hide IsSpace, LowerChar, FoldChar;
    CaseKeepsSpaces(c);
    CaseKeepsSpaces(s[i]);
  }

  /** A configuration that serves a model and, once seeded, does not: its endpoint spells the model
      with another character of the same folding class, such as a long s or a final sigma. */
  lemma OtherSpellingIsLost(model: string, i: nat, c: char) returns (cfg: Config, b: Backend, rules: seq<RouteRuleRecord>)
    requires Normalize(model) == model && i < |model|
    requires FoldChar(c) == FoldChar(model[i]) && LowerChar(c) == c && c != model[i]
    ensures cfg.backends == [Listing(model[i := c])] && b == Backend("a", 0, [model[i := c]], [], 0)
    ensures Seeded(cfg, [b], rules) && BuildBackend(ConfiguredEndpoints(cfg)[0]) == Ok(b) && !SeedSafe(b, model)
    ensures RankedBefore([b], model, b) && !RankedAfter([b], rules, model, b)
  {
    hide BuildBackend, Normalize, Trim, RankedBefore, RankedAfter;
    var m := model[i := c];
    cfg := Config([Listing(m)], Listing(m), Listing(m));
    b := Backend("a", 0, [m], [], 0);
    rules := Seeds(ConfiguredEndpoints(cfg), 1);
    Respelled(model, i, c);
    ListingBuilds(IndexedRole(0), m);
    assert EqualFold(Trim(b.models[0]), model);
    UnsafeIsLost(cfg, [b], rules, model, b);
  }

  lemma AloneIsAlike(c: Configured, b: Backend, model: string)
    requires BuildBackend(c) == Ok(b) && FoldsAlone(model)
    ensures SpelledAlike(b.models, model)
  {
    hide BuildBackend;
    forall m | m in b.models ensures forall i :: 0 <= i < |m| ==> LowerChar(m[i]) == m[i] {
      ListedModelsAreNormal(c, b, m);
      LowerIsLower(m);
    }
  }

  /** Every configuration with real priorities keeps a model's routing if and only if each character of
      the model has a lower-case folding class of its own. */
  lemma SafeSpellings(model: string)
    requires Normalize(model) == model && model != ""
    ensures (forall c, b :: BuildBackend(c) == Ok(b) && b.priority < MAX_INT ==> SeedSafe(b, model)) <==> FoldsAlone(model)
  {
    hide BuildBackend, SeedSafe, Normalize;
    if FoldsAlone(model) {
      forall c, b | BuildBackend(c) == Ok(b) && b.priority < MAX_INT ensures SeedSafe(b, model) {
        AloneIsAlike(c, b, model);
        OrdinaryConfigurationsAreSafe(c, b, model);
      }
    } else {
      var i, c :| 0 <= i < |model| && FoldChar(c) == FoldChar(model[i]) && LowerChar(c) == c && c != model[i];
      var cfg, b, _ := OtherSpellingIsLost(model, i, c);
      assert BuildBackend(ConfiguredEndpoints(cfg)[0]) == Ok(b);
    }
  }

  /** A blank model is offered every backend before seeding; after it, only those without models. */
  lemma BlankModelIsLost(cfg: Config, bs: seq<Backend>, rules: seq<RouteRuleRecord>, b: Backend)
    requires Seeded(cfg, bs, rules) && b in bs && b.priority < MAX_INT
    ensures RankedBefore(bs, "", b) && !RankedAfter(bs, rules, "", b) <==> b.models != []
  {
    hide RankedBefore, RankedAfter, Seeded;
    BlankIsNormal();
    UnsafeIsLost(cfg, bs, rules, "", b);
  }
}
