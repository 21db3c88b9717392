/** The bounds of admission are tight: settlement can take a tenant as far above its limits as it raises
    what was admitted (internal/store/mysql/governance_store.go). */
module AdmissionBounds {
  import opened Sums
  import opened Ledger
  import opened Admission
  import opened AdmissionSafety
  import opened AdmissionTokens

  const EMPTY := World([], [], map[], map[], map[], map[])

  /** A row as admission inserts it. */
  function Admitting(tenant: nat, tokens: nat, at: Time): (row: Row)
    ensures Fresh(row)
  {
    Row(tenant, "", "", "", false, "started", tokens, 0, tokens, at)
  }

  function Raising(tokens: nat): Settlement {
    Settlement("", "succeeded", tokens, 0, tokens)
  }

  /** One attempt that uses up what is left, settled above it. */
  function AttemptRun(row: Row, total: nat): seq<Step> {
    [Begin(0, AttemptAdmission, row), Lock(0), CheckBudget(0), Commit(0), SettleAttempt(0, Raising(total))]
  }

  lemma RunStep(plan: Plan, w: World, steps: seq<Step>, n: nat)
    requires n < |steps|
    ensures Run(plan, w, steps, n + 1) == Apply(plan, Run(plan, w, steps, n), steps[n])
  {
    hide Apply;
  }

  lemma NoRows(weight: Weight)
    ensures All([], weight) == 0
  {
  }

  lemma OneRow(row: Row, weight: Weight)
    ensures All([row], weight) == weight(row)
  {
    NoRows(weight);
    Appended([], row, weight);
    assert [] + [row] == [row];
  }

  /** The first attempt of an empty ledger is admitted when it fits the budget. */
  lemma FirstAttempt(plan: Plan, row: Row, total: nat)
    requires row.tenant in plan && Fresh(row)
    requires plan[row.tenant].tokenBudget <= 0 || row.promptTokens <= plan[row.tenant].tokenBudget
    ensures
      var w := Run(plan, EMPTY, AttemptRun(row, total), 4);
      && w.attempts == [row] && w.growth == map[] && w.lastRead == map[row.tenant := 0]
  {
    hide Run, All;
    var steps := AttemptRun(row, total);
    NoRows(TokensOf(row.tenant));
    assert Run(plan, EMPTY, steps, 0) == EMPTY by { RunZero(plan, EMPTY, steps); }
    RunStep(plan, EMPTY, steps, 0);
    RunStep(plan, EMPTY, steps, 1);
    RunStep(plan, EMPTY, steps, 2);
    RunStep(plan, EMPTY, steps, 3);
  }

  lemma RunZero(plan: Plan, w: World, steps: seq<Step>)
    ensures Run(plan, w, steps, 0) == w
  {
  }

  /** For every budget and every growth there is a run that ends at exactly the budget plus that growth:
      the bound of BudgetSafety is reached, and no positive budget is safe from settlement. */
  lemma BudgetBoundIsReached(plan: Plan, tenant: nat, growth: nat)
    requires tenant in plan && plan[tenant].tokenBudget > 0
    ensures
      var budget := plan[tenant].tokenBudget;
      var w := Run(plan, EMPTY, AttemptRun(Admitting(tenant, budget, 0), budget + growth), 5);
      && tenant in w.lastRead && GrowthOf(w, tenant) - w.lastRead[tenant] == growth
      && AttemptTotal(w, tenant) == budget + growth
  {
    hide Run, All;
    var budget := plan[tenant].tokenBudget;
    var row, total := Admitting(tenant, budget, 0), budget + growth;
    var steps := AttemptRun(row, total);
    FirstAttempt(plan, row, total);
    RunStep(plan, EMPTY, steps, 4);
    OneRow(Settled(row, Raising(total)), TokensOf(tenant));
    assert [row][0 := Settled(row, Raising(total))] == [Settled(row, Raising(total))];
  }

  function RequestRun(row: Row, total: nat): seq<Step> {
    [Begin(0, RequestAdmission, row), Lock(0), CheckBudget(0), CheckRpm(0), CheckTpm(0), Commit(0), SettleRequest(0, Raising(total))]
  }

  /** The first request of an empty ledger is admitted when it fits the budget and the token rate. */
  lemma FirstRequest(plan: Plan, row: Row, total: nat)
    requires row.tenant in plan && Fresh(row)
    requires plan[row.tenant].tokenBudget <= 0 || row.promptTokens <= plan[row.tenant].tokenBudget
    requires plan[row.tenant].tpmLimit <= 0 || row.promptTokens <= plan[row.tenant].tpmLimit
    ensures Run(plan, EMPTY, RequestRun(row, total), 6).requests == [row]
  {
    hide Run, All, Apply;
    var steps := RequestRun(row, total);
    FirstRequestChecked(plan, row, total);
    RunStep(plan, EMPTY, steps, 3);
    RunStep(plan, EMPTY, steps, 4);
    RunStep(plan, EMPTY, steps, 5);
    RatesPass(plan, Run(plan, EMPTY, steps, 3), row);
  }

  /** The rate checks let the first request through, and it commits. */
  lemma RatesPass(plan: Plan, w: World, row: Row)
    requires w.requests == [] && w.txs == map[0 := Tx(RequestAdmission, row, BudgetPassed, 0)]
    requires row.tenant in plan && (plan[row.tenant].tpmLimit <= 0 || row.promptTokens <= plan[row.tenant].tpmLimit)
    ensures Apply(plan, Apply(plan, Apply(plan, w, CheckRpm(0)), CheckTpm(0)), Commit(0)).requests == [row]
  {
    hide All;
    NoRows(RequestsSince(row.tenant, row.createdAt - MINUTE));
    NoRows(TokensSince(row.tenant, row.createdAt - MINUTE));
    assert [] + [row] == [row];
    var counted := Apply(plan, w, CheckRpm(0));
    assert counted.requests == [] && counted.txs == map[0 := Tx(RequestAdmission, row, RpmPassed, 0)];
    var summed := Apply(plan, counted, CheckTpm(0));
    assert summed.requests == [] && summed.txs == map[0 := Tx(RequestAdmission, row, Ready, 0)];
  }

  lemma FirstRequestChecked(plan: Plan, row: Row, total: nat)
    requires row.tenant in plan && Fresh(row)
    requires plan[row.tenant].tokenBudget <= 0 || row.promptTokens <= plan[row.tenant].tokenBudget
    ensures
      var w := Run(plan, EMPTY, RequestRun(row, total), 3);
      w.requests == [] && w.txs == map[0 := Tx(RequestAdmission, row, BudgetPassed, 0)]
  {
    hide Run, All;
    var steps := RequestRun(row, total);
    NoRows(TokensOf(row.tenant));
    RunZero(plan, EMPTY, steps);
    RunStep(plan, EMPTY, steps, 0);
    RunStep(plan, EMPTY, steps, 1);
    RunStep(plan, EMPTY, steps, 2);
  }

  lemma {:induction false} NothingRaised(plan: Plan, row: Row, total: nat, tenant: nat, n: nat)
    requires n <= 6
    ensures Raised(plan, EMPTY, RequestRun(row, total), n, tenant) == 0
  {
    hide Run;
    if n > 0 {
      NothingRaised(plan, row, total, tenant, n - 1);
    }
  }

  /** For every token rate, every prompt that is admitted and every amount by which settlement raises it,
      there is a run whose window holds exactly the prompt plus that amount. So the bound of
      SlidingTokenWindow is reached by a prompt that uses up the limit, and any limit is passed. */
  lemma TokenBoundIsReached(plan: Plan, tenant: nat, prompt: nat, growth: nat, at: Time)
    requires tenant in plan && plan[tenant].tpmLimit > 0 && prompt <= plan[tenant].tpmLimit
    requires plan[tenant].tokenBudget <= 0 || prompt <= plan[tenant].tokenBudget
    ensures
      var steps := RequestRun(Admitting(tenant, prompt, at), prompt + growth);
      && All(Run(plan, EMPTY, steps, 7).requests, TokensWithin(tenant, at, at + MINUTE)) == prompt + growth
      && Raised(plan, EMPTY, steps, 7, tenant) == growth
  {
    var row, total := Admitting(tenant, prompt, at), prompt + growth;
    var steps := RequestRun(row, total);
    FirstRequest(plan, row, total);
    RunStep(plan, EMPTY, steps, 6);
    var settled := Settled(row, Raising(total));
    assert [row][0 := settled] == [settled];
    OneRow(settled, TokensWithin(tenant, at, at + MINUTE));
    NothingRaised(plan, row, total, tenant, 6);
    hide Run, All, Apply;
    assert Raise(Run(plan, EMPTY, steps, 6), steps[6], tenant) == growth;
    assert Raised(plan, EMPTY, steps, 7, tenant) == Raised(plan, EMPTY, steps, 6, tenant) + growth;
  }
}
