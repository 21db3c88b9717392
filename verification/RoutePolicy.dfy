/** From provider configuration to route rules and back to backends: seeding the rules table
    (internal/routingpolicy/policy.go) and applying it at start-up (cmd/gateway/main.go). */
module RoutePolicy {
  import opened Wrappers
  import opened Text
  import opened Ranking

  datatype Endpoint = Endpoint(name: string, kind: string, priority: int, models: seq<string>, baseURL: string, timeoutSeconds: int)

  datatype Config = Config(backends: seq<Endpoint>, primary: Endpoint, secondary: Endpoint)

  datatype Configured = Configured(role: string, endpoint: Endpoint)

  datatype RouteRuleRecord = RouteRuleRecord(backendName: string, model: string, priority: int)

  const SECOND := 1_000_000_000

  // ---- Endpoints and their names ----

  function DecimalText(n: nat): string {
    if n < 10 then ["0123456789"[n]] else DecimalText(n / 10) + ["0123456789"[n % 10]]
  }

  function IndexedRole(i: nat): string {
    "backends[" + DecimalText(i) + "]"
  }

  function ConfiguredEndpoints(cfg: Config): seq<Configured> {
    if cfg.backends != [] then
      seq(|cfg.backends|, i requires 0 <= i < |cfg.backends| => Configured(IndexedRole(i), cfg.backends[i]))
    else [Configured("primary", cfg.primary), Configured("secondary", cfg.secondary)]
  }

  function ProviderKind(e: Endpoint): string {
    if Normalize(e.kind) == "" then "mock" else Normalize(e.kind)
  }

  function ProviderName(c: Configured): string {
    if Trim(c.endpoint.name) != "" then Trim(c.endpoint.name) else ProviderKind(c.endpoint) + "-" + c.role
  }

  /** The distinct normalised model names among the first n, in order of first appearance. */
  function ModelNames(models: seq<string>, n: nat): seq<string>
    requires n <= |models|
  {
    if n == 0 then []
    else
      var front, name := ModelNames(models, n - 1), Normalize(models[n - 1]);
      if name == "" || name in front then front else front + [name]
  }

  /** normalizeRouteRuleModels, and normalizeModels, which does the same. */
  method NormalizeModels(models: seq<string>) returns (normalized: seq<string>)
    ensures normalized == ModelNames(models, |models|)
  {
    hide Normalize;
    normalized := [];
    var seen: set<string> := {};
    for i := 0 to |models|
      invariant normalized == ModelNames(models, i)
      invariant forall x :: x in seen <==> x in normalized
    {
      var trimmed := Normalize(models[i]);
      if trimmed == "" || trimmed in seen {
        continue;
      }
      seen := seen + {trimmed};
      normalized := normalized + [trimmed];
    }
  }

  function NormalizedModels(e: Endpoint): seq<string> {
    ModelNames(e.models, |e.models|)
  }

  /** What normalised names are: each exactly once, never blank, and fixed under normalising. */
  lemma {:induction false} ModelNamesAreNormal(models: seq<string>, n: nat)
    requires n <= |models|
    ensures forall x :: x in ModelNames(models, n) <==> x != "" && exists i :: 0 <= i < n && Normalize(models[i]) == x
    ensures forall i, j :: 0 <= i < j < |ModelNames(models, n)| ==> ModelNames(models, n)[i] != ModelNames(models, n)[j]
    ensures forall x :: x in ModelNames(models, n) ==> Normalize(x) == x && Lower(x) == x && Trim(x) == x
  {
    hide Normalize, Lower, Trim;
    if n > 0 {
      ModelNamesAreNormal(models, n - 1);
      NormalizeIdempotent(models[n - 1]);
    }
  }

  // ---- Seeding ----

  function RecordsFor(name: string, priority: int, models: seq<string>): (r: seq<RouteRuleRecord>)
    ensures |r| == |models|
    ensures forall i :: 0 <= i < |models| ==> r[i] == RouteRuleRecord(name, models[i], priority)
  {
    seq(|models|, i requires 0 <= i < |models| => RouteRuleRecord(name, models[i], priority))
  }

  /** The rules of one endpoint: one for any model, or one for each model it lists. */
  function EndpointSeeds(c: Configured): seq<RouteRuleRecord> {
    var models := NormalizedModels(c.endpoint);
    RecordsFor(ProviderName(c), c.endpoint.priority, if models == [] then [""] else models)
  }

  function Seeds(endpoints: seq<Configured>, n: nat): seq<RouteRuleRecord>
    requires n <= |endpoints|
  {
    if n == 0 then [] else Seeds(endpoints, n - 1) + EndpointSeeds(endpoints[n - 1])
  }

  method DesiredRouteRuleSeeds(cfg: Config) returns (rules: seq<RouteRuleRecord>)
    ensures rules == Seeds(ConfiguredEndpoints(cfg), |ConfiguredEndpoints(cfg)|)
  {
    hide ProviderName, ModelNames, ConfiguredEndpoints;
    var endpoints := ConfiguredEndpoints(cfg);
    rules := [];
    for i := 0 to |endpoints|
      invariant rules == Seeds(endpoints, i)
    {
      var name := ProviderName(endpoints[i]);
      var priority := endpoints[i].endpoint.priority;
      var models := NormalizeModels(endpoints[i].endpoint.models);
      if |models| == 0 {
        rules := rules + [RouteRuleRecord(name, "", priority)];
        assert RecordsFor(name, priority, [""]) == [RouteRuleRecord(name, "", priority)];
        continue;
      }
      ghost var before := rules;
      ghost var own := RecordsFor(name, priority, models);
      for j := 0 to |models|
        invariant rules == before + own[..j]
      {
        rules := rules + [RouteRuleRecord(name, models[j], priority)];
        assert own[..j + 1] == own[..j] + [own[j]];
      }
      assert own[..|models|] == own;
    }
  }

  // ---- Building backends ----

  function BuildBackend(c: Configured): Result<Backend, string> {
    var e, kind := c.endpoint, ProviderKind(c.endpoint);
    if kind == "mock" then Ok(Backend(ProviderName(c), e.priority, NormalizedModels(e), [], 0))
    else if kind in {"openai", "anthropic", "ollama"} then
      if Trim(e.baseURL) == "" then Err(c.role + " provider base_url is required for type " + kind)
      else Ok(Backend(ProviderName(c), e.priority, NormalizedModels(e), [], e.timeoutSeconds * SECOND))
    else Err(c.role + " provider type is not supported")
  }

  /** bs are the backends that the endpoints build. */
  ghost predicate Built(endpoints: seq<Configured>, bs: seq<Backend>) {
    |bs| == |endpoints| && forall i :: 0 <= i < |bs| ==> BuildBackend(endpoints[i]) == Ok(bs[i])
  }

  ghost predicate DistinctNames(bs: seq<Backend>) {
    forall i, j :: 0 <= i < j < |bs| ==> bs[i].name != bs[j].name
  }

  // ---- Applying rules ----

  /** The rules among the first n that name the backend. */
  function RulesFor(rules: seq<RouteRuleRecord>, n: nat, name: string): seq<RouteRule>
    requires n <= |rules|
  {
    if n == 0 then []
    else
      var front, last := RulesFor(rules, n - 1, name), rules[n - 1];
      if Trim(last.backendName) == name then front + [RouteRule(Normalize(last.model), last.priority)] else front
  }

  function MinPriority(rules: seq<RouteRule>): (p: int)
    requires rules != []
    ensures forall i :: 0 <= i < |rules| ==> p <= rules[i].priority
    ensures exists i :: 0 <= i < |rules| && rules[i].priority == p
  {
    var last := rules[|rules| - 1].priority;
    if |rules| == 1 then last
    else
      var front := MinPriority(rules[..|rules| - 1]);
      if last < front then last else front
  }

  /** A backend that the rules name: they replace its models, and its priority is their lowest. */
  function Rewritten(b: Backend, rules: seq<RouteRule>): Backend
    requires rules != []
  {
    b.(routeRules := rules, models := [], priority := MinPriority(rules))
  }

  function Routed(bs: seq<Backend>, n: nat, rules: seq<RouteRuleRecord>): seq<Backend>
    requires n <= |bs|
  {
    if n == 0 then []
    else
      var front, own := Routed(bs, n - 1, rules), RulesFor(rules, |rules|, bs[n - 1].name);
      if own == [] then front else front + [Rewritten(bs[n - 1], own)]
  }

  predicate Known(bs: seq<Backend>, name: string) {
    exists j :: 0 <= j < |bs| && bs[j].name == name
  }

  predicate NamesBackend(rules: seq<RouteRuleRecord>, i: nat, bs: seq<Backend>)
    requires i < |rules|
  {
    Known(bs, Trim(rules[i].backendName))
  }

  datatype Applied = Applied(backends: seq<Backend>, enabled: bool)

  type RuleGroups = map<string, seq<RouteRule>>

  function GroupOf(groups: RuleGroups, name: string): seq<RouteRule> {
    if name in groups then groups[name] else []
  }

  /** The first n rules, grouped by backend, with the lowest priority of each group. */
  ghost predicate Grouped(rules: seq<RouteRuleRecord>, n: nat, groups: RuleGroups, minPriority: map<string, int>)
    requires n <= |rules|
  {
    && groups.Keys == minPriority.Keys
    && (forall name :: GroupOf(groups, name) == RulesFor(rules, n, name))
    && (forall name :: name in groups ==> groups[name] != [] && minPriority[name] == MinPriority(groups[name]))
  }

  lemma GroupedStep(rules: seq<RouteRuleRecord>, i: nat, groups: RuleGroups, minPriority: map<string, int>)
    requires i < |rules| && Grouped(rules, i, groups, minPriority)
    ensures
      var name, rule := Trim(rules[i].backendName), RouteRule(Normalize(rules[i].model), rules[i].priority);
      var lower := name !in minPriority || rule.priority < minPriority[name];
      Grouped(rules, i + 1, groups[name := GroupOf(groups, name) + [rule]],
              if lower then minPriority[name := rule.priority] else minPriority)
  {
    hide Trim, Normalize, MinPriority;
    var name, rule := Trim(rules[i].backendName), RouteRule(Normalize(rules[i].model), rules[i].priority);
    var known := GroupOf(groups, name);
    MinPriorityStep(known, rule);
    var next := groups[name := known + [rule]];
    forall n ensures GroupOf(next, n) == RulesFor(rules, i + 1, n) {
      assert GroupOf(groups, n) == RulesFor(rules, i, n);
    }
  }

  lemma MinPriorityStep(known: seq<RouteRule>, rule: RouteRule)
    ensures MinPriority(known + [rule]) ==
            if known == [] || rule.priority < MinPriority(known) then rule.priority else MinPriority(known)
  {
    assert (known + [rule])[..|known|] == known;
  }

  lemma {:induction false} GroupsOfNamedBackends(rules: seq<RouteRuleRecord>, n: nat, name: string)
    requires n <= |rules|
    ensures RulesFor(rules, n, name) != [] <==> exists i :: 0 <= i < n && Trim(rules[i].backendName) == name
  {
    hide Trim, Normalize;
    if n > 0 {
      GroupsOfNamedBackends(rules, n - 1, name);
    }
  }

  method ApplyRouteRules(backends: seq<Backend>, rules: seq<RouteRuleRecord>) returns (r: Result<Applied, string>)
    ensures rules == [] ==> r == Ok(Applied(backends, false))
    ensures rules != [] ==>
      if exists i :: 0 <= i < |rules| && (Trim(rules[i].backendName) == "" || !NamesBackend(rules, i, backends))
      then r.Err?
      else r == Ok(Applied(Routed(backends, |backends|, rules), true))
  {
    hide Trim, Normalize, MinPriority, Rewritten, RulesFor, Grouped, Routed, NamesBackend;
    if |rules| == 0 {
      return Ok(Applied(backends, false));
    }
    var byBackend: RuleGroups := map[];
    var minPriority: map<string, int> := map[];
    NothingGrouped(rules);
    for i := 0 to |rules|
      invariant forall k :: 0 <= k < i ==> Trim(rules[k].backendName) != ""
      invariant Grouped(rules, i, byBackend, minPriority)
    {
      var backendName := Trim(rules[i].backendName);
      if backendName == "" {
        return Err("route rule backend_name is required");
      }
      GroupedStep(rules, i, byBackend, minPriority);
      var rule := RouteRule(Normalize(rules[i].model), rules[i].priority);
      byBackend := byBackend[backendName := GroupOf(byBackend, backendName) + [rule]];
      if backendName !in minPriority || rules[i].priority < minPriority[backendName] {
        minPriority := minPriority[backendName := rules[i].priority];
      }
    }
    r := FilterRouted(backends, rules, byBackend, minPriority);
  }

  lemma NothingGrouped(rules: seq<RouteRuleRecord>)
    ensures Grouped(rules, 0, map[], map[])
  {
  }

  /** The second half of applyRouteRules: keep the named backends and refuse unknown names. Its
      last error is never returned: a rule that names no kept backend is refused before. */
  method FilterRouted(backends: seq<Backend>, rules: seq<RouteRuleRecord>,
                      byBackend: RuleGroups, minPriority: map<string, int>)
    returns (r: Result<Applied, string>)
    requires rules != [] && Grouped(rules, |rules|, byBackend, minPriority)
    ensures
      if exists i :: 0 <= i < |rules| && !NamesBackend(rules, i, backends) then r.Err?
      else r == Ok(Applied(Routed(backends, |backends|, rules), true))
  {
    hide Trim, MinPriority, RulesFor, NamesBackend, Grouped;
    var filtered: seq<Backend> := [];
    var seen: set<string> := {};
    for i := 0 to |backends|
      invariant filtered == Routed(backends, i, rules)
      invariant seen == KeptNames(backends, i, byBackend)
    {
      KeptStep(backends, i, rules, byBackend, minPriority);
      var name := backends[i].name;
      if name in byBackend {
        filtered := filtered + [backends[i].(routeRules := byBackend[name], models := [], priority := minPriority[name])];
        seen := seen + {name};
      }
    }
    AllNamesKnown(backends, rules, byBackend, minPriority);
    if unknown :| unknown in byBackend && unknown !in seen {
      return Err("route rule references unknown backend");
    }
    if |filtered| == 0 {
      return Err("route rules configured but no routed backends remained");
    }
    r := Ok(Applied(filtered, true));
  }

  function KeptNames(backends: seq<Backend>, n: nat, groups: RuleGroups): set<string>
    requires n <= |backends|
  {
    set i | 0 <= i < n && backends[i].name in groups :: backends[i].name
  }

  lemma KeptStep(backends: seq<Backend>, i: nat, rules: seq<RouteRuleRecord>,
                 groups: RuleGroups, minPriority: map<string, int>)
    requires i < |backends| && Grouped(rules, |rules|, groups, minPriority)
    ensures
      var b := backends[i];
      && groups.Keys == minPriority.Keys
      && Routed(backends, i + 1, rules) ==
         (if b.name !in groups then Routed(backends, i, rules)
          else Routed(backends, i, rules) + [b.(routeRules := groups[b.name], models := [], priority := minPriority[b.name])])
      && KeptNames(backends, i + 1, groups) ==
         KeptNames(backends, i, groups) + (if b.name in groups then {b.name} else {})
  {
    hide RulesFor, MinPriority;
    var name := backends[i].name;
    assert GroupOf(groups, name) == RulesFor(rules, |rules|, name);
  }

  /** All rules name a backend exactly when every group's backend is kept; and then one is. */
  lemma AllNamesKnown(backends: seq<Backend>, rules: seq<RouteRuleRecord>, groups: RuleGroups, minPriority: map<string, int>)
    requires rules != [] && Grouped(rules, |rules|, groups, minPriority)
    ensures (exists i :: 0 <= i < |rules| && !NamesBackend(rules, i, backends)) <==>
            exists name :: name in groups && name !in KeptNames(backends, |backends|, groups)
    ensures Routed(backends, |backends|, rules) == [] ==> KeptNames(backends, |backends|, groups) == {}
    ensures groups != map[]
  {
    hide RulesFor, Grouped, Trim, Known, KeptNames, Routed;
    RoutedKeeps(backends, |backends|, rules, groups, minPriority);
    RuleInGroup(rules, 0, groups, minPriority);
    if i :| 0 <= i < |rules| && !NamesBackend(rules, i, backends) {
      RuleInGroup(rules, i, groups, minPriority);
      KeptIsKnown(backends, groups, Trim(rules[i].backendName));
    }
    if name :| name in groups && name !in KeptNames(backends, |backends|, groups) {
      var i := GroupHasRule(rules, groups, minPriority, name);
      KeptIsKnown(backends, groups, name);
      assert !NamesBackend(rules, i, backends);
    }
  }

  lemma RuleInGroup(rules: seq<RouteRuleRecord>, i: nat, groups: RuleGroups, minPriority: map<string, int>)
    requires i < |rules| && Grouped(rules, |rules|, groups, minPriority)
    ensures Trim(rules[i].backendName) in groups
  {
    hide RulesFor, MinPriority, Trim;
    var name := Trim(rules[i].backendName);
    GroupsOfNamedBackends(rules, |rules|, name);
    assert GroupOf(groups, name) == RulesFor(rules, |rules|, name);
  }

  lemma GroupHasRule(rules: seq<RouteRuleRecord>, groups: RuleGroups, minPriority: map<string, int>, name: string)
    returns (i: nat)
    requires name in groups && Grouped(rules, |rules|, groups, minPriority)
    ensures i < |rules| && Trim(rules[i].backendName) == name
  {
    hide RulesFor, MinPriority, Trim;
    GroupsOfNamedBackends(rules, |rules|, name);
    assert GroupOf(groups, name) == RulesFor(rules, |rules|, name);
    i :| 0 <= i < |rules| && Trim(rules[i].backendName) == name;
  }

  lemma KeptIsKnown(backends: seq<Backend>, groups: RuleGroups, name: string)
    ensures name in KeptNames(backends, |backends|, groups) <==> name in groups && Known(backends, name)
  {
  }

  lemma {:induction false} RoutedKeeps(backends: seq<Backend>, n: nat, rules: seq<RouteRuleRecord>,
                                       groups: RuleGroups, minPriority: map<string, int>)
    requires n <= |backends| && Grouped(rules, |rules|, groups, minPriority)
    ensures Routed(backends, n, rules) == [] ==> KeptNames(backends, n, groups) == {}
  {
    hide Grouped, Routed, KeptNames;
    if n == 0 {
      assert KeptNames(backends, 0, groups) == {} by { NothingKept(backends, groups); }
    } else {
      RoutedKeeps(backends, n - 1, rules, groups, minPriority);
      KeptStep(backends, n - 1, rules, groups, minPriority);
    }
  }

  lemma NothingKept(backends: seq<Backend>, groups: RuleGroups)
    ensures KeptNames(backends, 0, groups) == {}
  {
  }
}
