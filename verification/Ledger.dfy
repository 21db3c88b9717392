/** The usage tables as rows, and the aggregates that SQL computes over them
    (internal/store/mysql/governance_store.go). */
module Ledger {
  import opened Sums

  type Time = int

  /** One minute on the clock of created_at. */
  const MINUTE: Time := 60

  /** A row of request_usages or, with a backend, of request_attempt_usages. */
  datatype Row = Row(
    tenant: nat, requestId: string, backend: string, model: string, stream: bool, status: string,
    promptTokens: int, completionTokens: int, totalTokens: int, createdAt: Time)

  /** What an UPDATE sets. Tenant and created_at stay. */
  datatype Settlement = Settlement(model: string, status: string, promptTokens: int, completionTokens: int, totalTokens: int)

  function Settled(r: Row, u: Settlement): (r': Row)
    ensures r'.tenant == r.tenant && r'.createdAt == r.createdAt && r'.totalTokens == u.totalTokens
  {
    r.(model := u.model, status := u.status, promptTokens := u.promptTokens,
       completionTokens := u.completionTokens, totalTokens := u.totalTokens)
  }

  /** The limits of a tenant; a limit that is not positive does not bind. */
  datatype TenantLimits = TenantLimits(tokenBudget: int, rpmLimit: int, tpmLimit: int)

  // ---- Aggregates ----

  type Weight = Row -> int

  function TokensOf(tenant: nat): Weight {
    (r: Row) => if r.tenant == tenant then r.totalTokens else 0
  }

  function RequestsSince(tenant: nat, since: Time): Weight {
    (r: Row) => if r.tenant == tenant && r.createdAt >= since then 1 else 0
  }

  function TokensSince(tenant: nat, since: Time): Weight {
    (r: Row) => if r.tenant == tenant && r.createdAt >= since then r.totalTokens else 0
  }

  function RequestsWithin(tenant: nat, from: Time, to: Time): Weight {
    (r: Row) => if r.tenant == tenant && from <= r.createdAt <= to then 1 else 0
  }

  function TokensWithin(tenant: nat, from: Time, to: Time): Weight {
    (r: Row) => if r.tenant == tenant && from <= r.createdAt <= to then r.totalTokens else 0
  }

  /** The rows of one tenant among the first n, in order. */
  function Mine(rows: seq<Row>, n: nat, tenant: nat): (mine: seq<Row>)
    requires n <= |rows|
    ensures |mine| <= n
  {
    if n == 0 then [] else Mine(rows, n - 1, tenant) + if rows[n - 1].tenant == tenant then [rows[n - 1]] else []
  }

  lemma {:induction false} MinePrefix(rows: seq<Row>, more: seq<Row>, n: nat, tenant: nat)
    requires n <= |rows|
    ensures Mine(rows + more, n, tenant) == Mine(rows, n, tenant)
  {
    if n > 0 {
      MinePrefix(rows, more, n - 1, tenant);
    }
  }

  lemma MineAppended(rows: seq<Row>, r: Row, tenant: nat)
    ensures Mine(rows + [r], |rows| + 1, tenant) ==
            Mine(rows, |rows|, tenant) + if r.tenant == tenant then [r] else []
  {
    MinePrefix(rows, [r], |rows|, tenant);
  }

  /** Replacing a row by one of the same tenant replaces it in that tenant's rows, and only there. */
  lemma {:induction false} MineReplaced(rows: seq<Row>, k: nat, r: Row, n: nat, tenant: nat)
    requires k < |rows| && n <= |rows| && r.tenant == rows[k].tenant
    ensures
      var before, after := Mine(rows, n, tenant), Mine(rows[k := r], n, tenant);
      if k < n && r.tenant == tenant then
        var at := |Mine(rows, k, tenant)|;
        at < |before| && before[at] == rows[k] && after == before[at := r]
      else after == before
  {
    if n > 0 {
      MineReplaced(rows, k, r, n - 1, tenant);
    }
  }

  /** A sum that only weighs one tenant's rows can be taken over that tenant's rows. */
  lemma {:induction false} SumOfMine(rows: seq<Row>, n: nat, tenant: nat, weight: Weight)
    requires n <= |rows| && forall r: Row :: r.tenant != tenant ==> weight(r) == 0
    ensures Sum(rows, n, weight) == All(Mine(rows, n, tenant), weight)
  {
    if n > 0 {
      SumOfMine(rows, n - 1, tenant, weight);
      if rows[n - 1].tenant == tenant {
        Appended(Mine(rows, n - 1, tenant), rows[n - 1], weight);
      } else {
        assert Mine(rows, n, tenant) == Mine(rows, n - 1, tenant);
      }
    }
  }
}
