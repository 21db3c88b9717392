/** What a configuration's names, backends and rules mean (cmd/gateway/main.go, internal/routingpolicy/policy.go). */
module ConfigLaws {
  import opened Wrappers
  import opened Text
  import opened Ranking
  import opened RoutePolicy

  // ---- Names ----

  predicate IsDigit(c: char) {
    '0' <= c <= '9'
  }

  lemma {:induction false} DecimalDigits(n: nat)
    ensures DecimalText(n) != [] && forall i :: 0 <= i < |DecimalText(n)| ==> IsDigit(DecimalText(n)[i])
  {
    if n >= 10 {
      DecimalDigits(n / 10);
    }
  }

  lemma LastDigit(n: nat)
    ensures DecimalText(n) != [] && DecimalText(n)[|DecimalText(n)| - 1] == "0123456789"[n % 10]
    ensures n < 10 <==> |DecimalText(n)| == 1
    ensures n >= 10 ==> DecimalText(n)[..|DecimalText(n)| - 1] == DecimalText(n / 10)
  {
    DecimalDigits(n / 10);
  }

  lemma DigitsDiffer(m: nat, n: nat)
    requires "0123456789"[m % 10] == "0123456789"[n % 10]
    ensures m % 10 == n % 10
  {
    assert forall k :: 0 <= k < 10 ==> "0123456789"[k] as int == k + '0' as int;
  }

  /** Two numbers are never printed alike. */
  lemma {:induction false} DecimalsDiffer(m: nat, n: nat)
    requires DecimalText(m) == DecimalText(n)
    ensures m == n
  {
    hide DecimalText;
    LastDigit(m);
    LastDigit(n);
    DigitsDiffer(m, n);
    if m >= 10 {
      DecimalsDiffer(m / 10, n / 10);
    }
  }

  /** The digits between the last bracket and the end of a text are determined by it. */
  lemma BracketedDigits(a: string, b: string, m: nat, n: nat)
    requires a + "[" + DecimalText(m) + "]" == b + "[" + DecimalText(n) + "]"
    ensures m == n
  {
    var x, y := DecimalText(m), DecimalText(n);
    DecimalDigits(m);
    DecimalDigits(n);
    var s, t := a + "[" + x + "]", b + "[" + y + "]";
    assert s[|a|] == '[' && t[|b|] == '[';
    assert forall i :: 0 <= i < |x| ==> s[|a| + 1 + i] == x[i];
    assert forall i :: 0 <= i < |y| ==> t[|b| + 1 + i] == y[i];
    if |a| < |b| {
      assert false;
    } else if |b| < |a| {
      assert false;
    } else {
      assert x == s[|a| + 1..|s| - 1] && y == t[|b| + 1..|t| - 1];
      DecimalsDiffer(m, n);
    }
  }

  /** Endpoints without a name are given different ones, whatever their kinds. */
  lemma DefaultNamesAreDistinct(cfg: Config, i: nat, j: nat)
    requires i < j < |ConfiguredEndpoints(cfg)|
    requires Trim(ConfiguredEndpoints(cfg)[i].endpoint.name) == "" && Trim(ConfiguredEndpoints(cfg)[j].endpoint.name) == ""
    ensures ProviderName(ConfiguredEndpoints(cfg)[i]) != ProviderName(ConfiguredEndpoints(cfg)[j])
  {
    hide Trim, ProviderKind, DecimalText;
    var c, d := ConfiguredEndpoints(cfg)[i], ConfiguredEndpoints(cfg)[j];
    var a, b := ProviderName(c), ProviderName(d);
    if cfg.backends == [] {
      assert a[|a| - 4] == 'm' && b[|b| - 4] == 'd';
    } else {
      IndexedName(ProviderKind(c.endpoint), i);
      IndexedName(ProviderKind(d.endpoint), j);
      if a == b {
        BracketedDigits(ProviderKind(c.endpoint) + "-backends", ProviderKind(d.endpoint) + "-backends", i, j);
      }
    }
  }

  lemma IndexedName(kind: string, i: nat)
    ensures kind + "-" + IndexedRole(i) == (kind + "-backends") + "[" + DecimalText(i) + "]"
  {
    hide DecimalText;
  }

  // ---- Endpoints and backends ----

  /** The listed backends are the endpoints, each in its place; without a list there are two, the primary one
      first. */
  lemma EndpointsInOrder(cfg: Config)
    ensures cfg.backends != [] ==>
              && |ConfiguredEndpoints(cfg)| == |cfg.backends|
              && forall i :: 0 <= i < |cfg.backends| ==> ConfiguredEndpoints(cfg)[i].endpoint == cfg.backends[i]
    ensures cfg.backends == [] ==>
              ConfiguredEndpoints(cfg) == [Configured("primary", cfg.primary), Configured("secondary", cfg.secondary)]
  {
  }

  /** A backend is built exactly for a kind that is known, "mock" when none is given, and that has a base URL
      if it needs one. It takes part by name, priority and models as configured, without rules; only a real
      upstream has a time within which its first chunk is due. */
  lemma BackendMeans(c: Configured)
    ensures
      var e, built := c.endpoint, BuildBackend(c);
      var kind := Lower(Trim(e.kind));
      && (built.Ok? <==> kind in {"", "mock"} || (kind in {"openai", "anthropic", "ollama"} && Trim(e.baseURL) != ""))
      && (built.Ok? ==>
            && built.value.priority == e.priority && built.value.routeRules == []
            && built.value.models == ModelNames(e.models, |e.models|)
            && built.value.firstEventTimeout == (if kind in {"", "mock"} then 0 else e.timeoutSeconds * 1_000_000_000)
            && built.value.name == (if Trim(e.name) != "" then Trim(e.name) else (if kind == "" then "mock" else kind) + "-" + c.role))
  {
    hide Trim, Lower, ModelNames;
    TrimLower(c.endpoint.kind);
  }

  // ---- Rules ----

  /** The numbers below n that are kept, in order. */
  function Kept(n: nat, keep: nat -> bool): seq<nat> {
    if n == 0 then [] else Kept(n - 1, keep) + if keep(n - 1) then [n - 1] else []
  }

  lemma {:induction false} KeptMeans(n: nat, keep: nat -> bool)
    ensures forall i: nat :: i in Kept(n, keep) <==> i < n && keep(i)
    ensures forall k, l :: 0 <= k < l < |Kept(n, keep)| ==> Kept(n, keep)[k] < Kept(n, keep)[l]
  {
    if n > 0 {
      KeptMeans(n - 1, keep);
      var front := Kept(n - 1, keep);
      assert forall k :: 0 <= k < |front| ==> front[k] in front;
    }
  }

  /** A backend's rules are those that name it, in the order of the table, with their models normalised. */
  lemma {:induction false} RulesPicked(rules: seq<RouteRuleRecord>, n: nat, name: string, keep: nat -> bool)
    requires n <= |rules| && forall i :: 0 <= i < |rules| ==> keep(i) == (Trim(rules[i].backendName) == name)
    ensures |RulesFor(rules, n, name)| == |Kept(n, keep)|
    ensures forall k :: 0 <= k < |Kept(n, keep)| ==>
              var i := Kept(n, keep)[k];
              i < n && RulesFor(rules, n, name)[k] == RouteRule(Normalize(rules[i].model), rules[i].priority)
  {
    hide Trim, Normalize;
    if n > 0 {
      RulesPicked(rules, n - 1, name, keep);
    }
  }

  /** A backend with its rules in place of its models, and the least of their priorities in place of its own. */
  predicate RuledBy(now: Backend, was: Backend, own: seq<RouteRule>) {
    && now.name == was.name && now.firstEventTimeout == was.firstEventTimeout
    && now.models == [] && now.routeRules == own && own != []
    && (forall i :: 0 <= i < |own| ==> now.priority <= own[i].priority)
    && (exists i :: 0 <= i < |own| && own[i].priority == now.priority)
  }

  lemma RewrittenIsRuled(b: Backend, own: seq<RouteRule>)
    requires own != []
    ensures RuledBy(Rewritten(b, own), b, own)
  {
  }

  lemma NothingRouted(bs: seq<Backend>, rules: seq<RouteRuleRecord>)
    ensures Routed(bs, 0, rules) == []
  {
  }

  lemma RoutedOneMore(bs: seq<Backend>, n: nat, rules: seq<RouteRuleRecord>)
    requires n < |bs|
    ensures
      var own, front := RulesFor(rules, |rules|, bs[n].name), Routed(bs, n, rules);
      Routed(bs, n + 1, rules) == if own == [] then front else front + [Rewritten(bs[n], own)]
  {
    hide RulesFor, Rewritten;
  }

  /** What rules make of the backends: those that no rule names are dropped, and the others stay in order. */
  lemma {:induction false} RoutedMeans(bs: seq<Backend>, n: nat, rules: seq<RouteRuleRecord>, keep: nat -> bool)
    requires n <= |bs| && forall i :: 0 <= i < |bs| ==> keep(i) == (RulesFor(rules, |rules|, bs[i].name) != [])
    ensures |Routed(bs, n, rules)| == |Kept(n, keep)|
    ensures forall k :: 0 <= k < |Kept(n, keep)| ==>
              var i := Kept(n, keep)[k];
              i < n && RuledBy(Routed(bs, n, rules)[k], bs[i], RulesFor(rules, |rules|, bs[i].name))
  {
    hide RulesFor, Rewritten, RuledBy, Routed;
    if n == 0 {
      NothingRouted(bs, rules);
    } else {
      RoutedMeans(bs, n - 1, rules, keep);
      RoutedOneMore(bs, n - 1, rules);
      if keep(n - 1) {
        RewrittenIsRuled(bs[n - 1], RulesFor(rules, |rules|, bs[n - 1].name));
      }
    }
  }
}
