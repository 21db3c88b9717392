/** The verdicts of the store's admission, said of the rows themselves
    (internal/store/mysql/governance_store.go). */
module StoreLaws {
  import opened Wrappers
  import opened Sums
  import opened Ledger
  import opened Admission
  import opened GovernanceStore
  import opened Tokens
  import Governance
  import RedisLimiter

  lemma RecentAreNumber(rows: seq<Row>, tenant: nat, since: Time)
    ensures All(rows, RequestsSince(tenant, since)) ==
            |set i | 0 <= i < |rows| && rows[i].tenant == tenant && rows[i].createdAt >= since|
  {
    var counted := (r: Row) => r.tenant == tenant && r.createdAt >= since;
    CountIsNumber(rows, |rows|, RequestsSince(tenant, since), counted);
    assert Places(rows, |rows|, counted) == set i | 0 <= i < |rows| && rows[i].tenant == tenant && rows[i].createdAt >= since;
  }

  /** The verdict on an attempt whose statements work: it is refused for the budget if and only if the
      budget is positive and the tenant's attempts and the prompt together exceed it. */
  lemma AttemptVerdict(tenants: set<nat>, requests: seq<Row>, attempts: seq<Row>, input: Input)
    ensures
      var tenant, limits := input.principal.tenant, input.principal.limits;
      var spent := All(attempts, (r: Row) => if r.tenant == tenant then r.totalTokens else 0);
      Refusal(AttemptAdmission, tenants, requests, attempts, input, {}) ==
      if tenant !in tenants then Some(StoreFailed)
      else if limits.tokenBudget > 0 && spent + input.promptTokens > limits.tokenBudget then Some(BudgetExceeded)
      else None
  {
    hide Sum;
    var tenant := input.principal.tenant;
    SumAgrees(attempts, |attempts|, TokensOf(tenant), (r: Row) => if r.tenant == tenant then r.totalTokens else 0);
  }

  /** The verdict on a request whose statements work, in the order of the checks. It is refused for its
      rate if and only if as many of the tenant's requests as the limit were created at most 60 seconds
      before it, and for its tokens if and only if theirs and its prompt together exceed the limit. A limit
      that is not positive refuses nothing. */
  lemma RequestVerdict(tenants: set<nat>, requests: seq<Row>, attempts: seq<Row>, input: Input)
    ensures
      var tenant, limits := input.principal.tenant, input.principal.limits;
      var spent := All(attempts, (r: Row) => if r.tenant == tenant then r.totalTokens else 0);
      var recent := set i | 0 <= i < |requests| && requests[i].tenant == tenant && requests[i].createdAt >= input.createdAt - 60;
      var used := All(requests, (r: Row) => if r.tenant == tenant && r.createdAt >= input.createdAt - 60 then r.totalTokens else 0);
      Refusal(RequestAdmission, tenants, requests, attempts, input, {}) ==
      if tenant !in tenants then Some(StoreFailed)
      else if limits.tokenBudget > 0 && spent + input.promptTokens > limits.tokenBudget then Some(BudgetExceeded)
      else if limits.rpmLimit > 0 && |recent| >= limits.rpmLimit then Some(RateLimitExceeded)
      else if limits.tpmLimit > 0 && used + input.promptTokens > limits.tpmLimit then Some(TokenLimitExceeded)
      else None
  {
    hide Sum;
    var tenant := input.principal.tenant;
    SumAgrees(attempts, |attempts|, TokensOf(tenant), (r: Row) => if r.tenant == tenant then r.totalTokens else 0);
    SumAgrees(requests, |requests|, TokensSince(tenant, input.createdAt - 60),
              (r: Row) => if r.tenant == tenant && r.createdAt >= input.createdAt - 60 then r.totalTokens else 0);
    RecentAreNumber(requests, tenant, input.createdAt - 60);
  }

  /** A failing statement is a failed store, if it is reached: no check is passed by a query that fails. */
  lemma FailuresAreNotVerdicts(kind: Kind, tenants: set<nat>, requests: seq<Row>, attempts: seq<Row>, input: Input, failing: set<Statement>)
    ensures
      var verdict := Refusal(kind, tenants, requests, attempts, input, failing);
      && (verdict.None? ==> Refusal(kind, tenants, requests, attempts, input, {}).None?)
      && (verdict.None? ==> BeginTx !in failing && LockRow !in failing && InsertRow !in failing && LastId !in failing && CommitTx !in failing)
      && (verdict.Some? ==> verdict == Some(StoreFailed) || verdict == Refusal(kind, tenants, requests, attempts, input, {}))
      && (failing == {} && input.principal.tenant in tenants && verdict.Some? ==> verdict != Some(StoreFailed))
  {
    hide OverBudget, OverRpm, OverTpm;
  }

  /** A check that is not due makes no query, so its query cannot fail: without a limit, and for an attempt
      without the two rate checks. */
  lemma ChecksThatAreNotDue(kind: Kind, tenants: set<nat>, requests: seq<Row>, attempts: seq<Row>, input: Input, failing: set<Statement>)
    ensures
      var limits := input.principal.limits;
      var due := failing - (if limits.tokenBudget <= 0 then {ReadBudget} else {})
                         - (if limits.rpmLimit <= 0 || kind == AttemptAdmission then {CountRequests} else {})
                         - (if limits.tpmLimit <= 0 || kind == AttemptAdmission then {SumTokens} else {});
      Refusal(kind, tenants, requests, attempts, input, failing) == Refusal(kind, tenants, requests, attempts, input, due)
  {
    hide OverBudget, OverRpm, OverTpm;
  }

  /** When a request that is turned away leaves its row behind: only outside a transaction, and only when all
      that failed was reading the row's id. */
  lemma RowsLeftBehind(service: Governance.Service, principal: Principal, m: Governance.RequestMetadata, now: Time, wire: Governance.Wire,
                       failing: set<Statement>)
    requires service.Turned(principal, m, now, wire, failing).Some?
    ensures
      service.AddsRow(principal, m, now, wire, failing) ==>
        && !service.transactional && LastId in failing && InsertRow !in failing
        && service.Turned(principal, m, now, wire, failing) == Some(StoreFailed)
        && service.Turned(principal, m, now, wire, failing - {LastId}) == None
    ensures
      !service.transactional && LastId in failing && InsertRow !in failing && service.redis == null
      && service.Turned(principal, m, now, wire, failing - {LastId}) == None ==>
        service.AddsRow(principal, m, now, wire, failing)
  {
    hide OverBudget, Refusal, RedisLimiter.Judge, PromptTokens;
  }

  /** The verdict of the service on a request whose statements work, by who decides. The store's own limiter
      is the store's transaction. With counters that answer, the budget comes first and then what they say,
      each refusal under its own name. When they do not answer, it is again what the transaction alone would
      have said. Without counters, or for a tenant without limits, only the budget is left. */
  lemma ServiceVerdict(service: Governance.Service, principal: Principal, m: Governance.RequestMetadata, now: Time, wire: Governance.Wire)
    requires service.Valid() && principal.tenant in service.store.tenants
    ensures
      var verdict := service.Turned(principal, m, now, wire, {});
      var spent := All(service.store.attempts, (r: Row) => if r.tenant == principal.tenant then r.totalTokens else 0);
      var budgetRefuses := principal.limits.tokenBudget > 0 && spent + PromptTokens(m.messages) > principal.limits.tokenBudget;
      var counters := service.redis;
      var transaction := Refusal(RequestAdmission, service.store.tenants, service.store.requests, service.store.attempts,
                                 Input(principal, m.requestId, "", m.model, m.stream, PromptTokens(m.messages), now), {});
      if service.transactional then verdict == transaction
      else if counters == null || (counters.limits(principal.tenant).rpmLimit <= 0 && counters.limits(principal.tenant).tpmLimit <= 0) then
        verdict == if budgetRefuses then Some(BudgetExceeded) else None
      else if !wire.delivery.Answered? then verdict == transaction
      else
        var judged := RedisLimiter.Judge(counters.limits, counters.state, RedisLimiter.Script(principal.tenant, PromptTokens(m.messages), now, wire.at));
        && (verdict == Some(BudgetExceeded) <==> budgetRefuses)
        && (verdict == Some(RateLimitExceeded) <==> !budgetRefuses && judged.RpmExceeded?)
        && (verdict == Some(TokenLimitExceeded) <==> !budgetRefuses && judged.TpmExceeded?)
        && (verdict == None <==> !budgetRefuses && judged.Admitting?)
  {
    hide Sum, PromptTokens, OverRpm, OverTpm, RedisLimiter.Judge;
    var tenant := principal.tenant;
    SumAgrees(service.store.attempts, |service.store.attempts|, TokensOf(tenant), (r: Row) => if r.tenant == tenant then r.totalTokens else 0);
  }

  /** What an admission inserts. */
  lemma RowMeans(input: Input)
    ensures RowOf(input) ==
            Row(input.principal.tenant, input.requestId, input.backend, input.model, input.stream, "started",
                input.promptTokens, 0, input.promptTokens, input.createdAt)
  {
  }

  lemma AllInTheMinute(requests: seq<Row>, input: Input)
    requires forall i :: 0 <= i < |requests| ==> requests[i] == RowOf(input)
    ensures
      var tenant := input.principal.tenant;
      |set i | 0 <= i < |requests| && requests[i].tenant == tenant && requests[i].createdAt >= input.createdAt - 60| == |requests|
  {
    RecentAreNumber(requests, input.principal.tenant, input.createdAt - 60);
    EachCounts(requests, |requests|, RequestsSince(input.principal.tenant, input.createdAt - 60));
  }

  lemma {:induction false} EachCounts(requests: seq<Row>, n: nat, weight: Weight)
    requires n <= |requests| && forall i :: 0 <= i < n ==> weight(requests[i]) == 1
    ensures Sum(requests, n, weight) == n
  {
    if n > 0 {
      EachCounts(requests, n - 1, weight);
    }
  }

  lemma {:induction false} NoTokens(requests: seq<Row>, n: nat, weight: Weight)
    requires n <= |requests| && forall i :: 0 <= i < n ==> weight(requests[i]) == 0
    ensures Sum(requests, n, weight) == 0
  {
    if n > 0 {
      NoTokens(requests, n - 1, weight);
    }
  }

  /** Fewer requests than the limit in the minute: one more is admitted. As many: it is refused. */
  lemma OneMoreOrNone(tenants: set<nat>, requests: seq<Row>, input: Input)
    requires input.principal.tenant in tenants && input.principal.limits.rpmLimit >= 1 && input.promptTokens == 0
    requires forall i :: 0 <= i < |requests| ==> requests[i] == RowOf(input)
    ensures Refusal(RequestAdmission, tenants, requests, [], input, {}) ==
            if |requests| < input.principal.limits.rpmLimit then None else Some(RateLimitExceeded)
  {
    hide Refusal, Sum;
    var tenant := input.principal.tenant;
    RequestVerdict(tenants, requests, [], input);
    AllInTheMinute(requests, input);
    NoTokens(requests, |requests|, (r: Row) => if r.tenant == tenant && r.createdAt >= input.createdAt - 60 then r.totalTokens else 0);
    NoTokens([], 0, (r: Row) => if r.tenant == tenant then r.totalTokens else 0);
  }

  /** The request rate is reached, for every limit: of requests that are begun at one instant, exactly as
      many as the limit are admitted, and the next is refused and leaves no row. */
  method RateIsReached(store: Store, input: Input) returns (admitted: nat, last: Result<nat, Error>)
    requires store.requests == [] && store.attempts == []
    requires input.principal.tenant in store.tenants && input.principal.limits.rpmLimit >= 1 && input.promptTokens == 0
    modifies store
    ensures admitted == input.principal.limits.rpmLimit && last == Err(RateLimitExceeded)
    ensures |store.requests| == admitted
    ensures forall i :: 0 <= i < admitted ==>
              store.requests[i].tenant == input.principal.tenant && store.requests[i].createdAt == input.createdAt
  {
    hide Refusal;
    admitted := 0;
    while admitted < input.principal.limits.rpmLimit
      invariant admitted <= input.principal.limits.rpmLimit && |store.requests| == admitted && store.attempts == []
      invariant forall i :: 0 <= i < |store.requests| ==> store.requests[i] == RowOf(input)
    {
      OneMoreOrNone(store.tenants, store.requests, input);
      var r, _ := store.BeginRequestAtomic(input, {});
      admitted := admitted + 1;
    }
    OneMoreOrNone(store.tenants, store.requests, input);
    var r, _ := store.BeginRequestAtomic(input, {});
    last := r;
  }
}
