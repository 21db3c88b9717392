/** What admission keeps when settlement does not raise totals, and by how much it can be exceeded when
    settlement does (internal/store/mysql/governance_store.go). */
module AdmissionTokens {
  import opened Sums
  import opened Ledger
  import opened Admission
  import opened AdmissionSafety

  // ---- The budget without growth ----

  predicate Raises(rows: seq<Row>, at: nat, u: Settlement) {
    at < |rows| && u.totalTokens > rows[at].totalTokens
  }

  /** No settlement in the run raises the total of an attempt. */
  ghost predicate NeverRaises(plan: Plan, w: World, steps: seq<Step>) {
    forall i :: 0 <= i < |steps| && steps[i].SettleAttempt? ==>
      !Raises(Run(plan, w, steps, i).attempts, steps[i].at, steps[i].settlement)
  }

  lemma GrowthMoves(plan: Plan, w: World, step: Step, tenant: nat)
    requires step.SettleAttempt? ==> !Raises(w.attempts, step.at, step.settlement)
    ensures GrowthOf(Apply(plan, w, step), tenant) <= GrowthOf(w, tenant)
  {
    hide LockTaken, BudgetChecked, RpmChecked, TpmChecked, Aborted, End;
    OnlyCommitsAndUpdates(plan, w, step);
    if step.Commit? && In(w, step.tx, Ready) {
      EndMoves(w, step.tx, Committed);
    }
  }

  ghost predicate ReadsAreCurrent(w: World) {
    && (forall id :: id in w.txs && Passed(w.txs[id].phase) ==> GrowthOf(w, w.txs[id].row.tenant) <= w.txs[id].growthAtRead)
    && (forall tenant :: tenant in w.lastRead ==> GrowthOf(w, tenant) <= w.lastRead[tenant])
  }

  lemma StepKeepsReadsCurrent(plan: Plan, w: World, step: Step)
    requires ReadsAreCurrent(w)
    requires step.SettleAttempt? ==> !Raises(w.attempts, step.at, step.settlement)
    ensures ReadsAreCurrent(Apply(plan, w, step))
  {
    hide Apply, GrowthOf, Raises, OverBudget;
    var after := Apply(plan, w, step);
    forall id | id in after.txs && Passed(after.txs[id].phase)
      ensures GrowthOf(after, after.txs[id].row.tenant) <= after.txs[id].growthAtRead
    {
      PassedByCheck(plan, w, step, id);
      GrowthMoves(plan, w, step, after.txs[id].row.tenant);
    }
    forall tenant | tenant in after.lastRead ensures GrowthOf(after, tenant) <= after.lastRead[tenant] {
      LastReadMoves(plan, w, step, tenant);
      GrowthMoves(plan, w, step, tenant);
    }
  }

  lemma {:induction false} ReadsStayCurrent(plan: Plan, w: World, steps: seq<Step>, n: nat)
    requires Quiet(w) && n <= |steps| && NeverRaises(plan, w, steps)
    ensures ReadsAreCurrent(Run(plan, w, steps, n))
  {
    if n > 0 {
      hide Apply, ReadsAreCurrent, Raises;
      ReadsStayCurrent(plan, w, steps, n - 1);
      StepKeepsReadsCurrent(plan, Run(plan, w, steps, n - 1), steps[n - 1]);
    }
  }

  /** Without growth, a tenant that has been admitted stays within its budget. */
  lemma BudgetWithoutGrowth(plan: Plan, w: World, steps: seq<Step>, n: nat, tenant: nat)
    requires Quiet(w) && n <= |steps| && NeverRaises(plan, w, steps)
    requires tenant in plan && plan[tenant].tokenBudget > 0
    ensures tenant in Run(plan, w, steps, n).lastRead ==>
              AttemptTotal(Run(plan, w, steps, n), tenant) <= plan[tenant].tokenBudget
  {
    hide Run, AttemptTotal, GrowthOf, NeverRaises;
    BudgetSafety(plan, w, steps, n, tenant);
    ReadsStayCurrent(plan, w, steps, n);
  }

  // ---- The token rate ----

  /** By how much a step raises the total of one of the tenant's requests. */
  function Raise(w: World, step: Step, tenant: nat): nat {
    match step
    case SettleRequest(at, u) =>
      if at < |w.requests| && w.requests[at].tenant == tenant && u.totalTokens > w.requests[at].totalTokens
      then u.totalTokens - w.requests[at].totalTokens else 0
    case _ => 0
  }

  function Raised(plan: Plan, w: World, steps: seq<Step>, n: nat, tenant: nat): nat
    requires n <= |steps|
  {
    if n == 0 then 0
    else Raised(plan, w, steps, n - 1, tenant) + Raise(Run(plan, w, steps, n - 1), steps[n - 1], tenant)
  }

  predicate NonNegative(rows: seq<Row>) {
    forall i :: 0 <= i < |rows| ==> rows[i].totalTokens >= 0
  }

  /** Every admission is a transaction, and settlement sets no negative total. */
  predicate Sane(step: Step) {
    !step.InsertRequest? && (step.SettleRequest? ==> step.settlement.totalTokens >= 0)
  }

  predicate FitsTokens(plan: Plan, w: World, tx: Tx, raised: nat) {
    tx.row.tenant in plan && plan[tx.row.tenant].tpmLimit > 0 ==>
      All(w.requests, TokensSince(tx.row.tenant, tx.row.createdAt - MINUTE)) + tx.row.promptTokens
        <= plan[tx.row.tenant].tpmLimit + raised
  }

  predicate TokensKept(plan: Plan, w: World, tenant: nat, from: Time, raised: nat) {
    tenant in plan && plan[tenant].tpmLimit > 0 ==>
      All(w.requests, TokensWithin(tenant, from, from + MINUTE)) <= plan[tenant].tpmLimit + raised
  }

  ghost predicate TokensSafe(plan: Plan, w: World, tenant: nat, raised: nat) {
    && Exclusive(w) && NonNegative(w.requests)
    && (forall id :: id in w.txs && TokensPassed(w.txs[id]) && w.txs[id].row.tenant == tenant ==>
          FitsTokens(plan, w, w.txs[id], raised))
    && (forall from :: TokensKept(plan, w, tenant, from, raised))
  }

  lemma TokensPassedByCheck(plan: Plan, w: World, step: Step, id: nat)
    ensures
      var w' := Apply(plan, w, step);
      id in w'.txs && TokensPassed(w'.txs[id]) ==>
        && id in w.txs && w'.txs[id].row == w.txs[id].row && !Commits(w, step, id)
        && (TokensPassed(w.txs[id])
            || (&& step == CheckTpm(id) && w.txs[id].row.tenant in plan
                && !OverTpm(plan[w.txs[id].row.tenant], w.requests, w.txs[id].row)))
  {
    hide OverBudget, OverRpm, OverTpm, Opened, LockTaken, BudgetChecked, RpmChecked, TpmChecked, Inserted, Aborted, GrowthOf;
    match step
    case Begin(i, kind, row) => OpeningPassesNobody(w, i, kind, row);
    case Lock(i) => LockingPassesNobody(plan, w, i);
    case CheckBudget(i) => BudgetCheckPasses(plan, w, i, id);
    case CheckRpm(i) => RpmCheckPasses(plan, w, i, id);
    case CheckTpm(i) => TpmCheckPasses(plan, w, i, id);
    case Commit(i) => EndingPassesNobody(w, i);
    case Rollback(i) => EndingPassesNobody(w, i);
    case _ =>
  }

  lemma StepKeepsNonNegative(plan: Plan, w: World, step: Step)
    requires Exclusive(w) && NonNegative(w.requests) && Sane(step)
    ensures NonNegative(Apply(plan, w, step).requests)
  {
    hide LockTaken, BudgetChecked, RpmChecked, TpmChecked, Aborted;
    OnlyCommitsAndUpdates(plan, w, step);
  }

  lemma SettlingRaises(w: World, step: Step, tenant: nat, since: Time, to: Time)
    requires step.SettleRequest?
    ensures RequestDelta(w, step, TokensSince(tenant, since)) <= Raise(w, step, tenant)
    ensures RequestDelta(w, step, TokensWithin(tenant, since, to)) <= Raise(w, step, tenant)
  {
  }

  lemma StepKeepsFitsTokens(plan: Plan, w: World, step: Step, id: nat, tenant: nat, raised: nat)
    requires TokensSafe(plan, w, tenant, raised) && Sane(step)
    requires id in Apply(plan, w, step).txs && TokensPassed(Apply(plan, w, step).txs[id])
    requires Apply(plan, w, step).txs[id].row.tenant == tenant
    ensures FitsTokens(plan, Apply(plan, w, step), Apply(plan, w, step).txs[id], raised + Raise(w, step, tenant))
  {
    hide Apply, All, Raise;
    TokensPassedByCheck(plan, w, step, id);
    var row := w.txs[id].row;
    RequestsMove(plan, w, step, TokensSince(tenant, row.createdAt - MINUTE));
    if step.SettleRequest? {
      SettlingRaises(w, step, tenant, row.createdAt - MINUTE, 0);
    }
  }

  lemma WithinIsSinceTokens(rows: seq<Row>, tenant: nat, from: Time, createdAt: Time)
    requires NonNegative(rows) && from <= createdAt <= from + MINUTE
    ensures All(rows, TokensWithin(tenant, from, from + MINUTE)) <= All(rows, TokensSince(tenant, createdAt - MINUTE))
  {
    SumAtMost(rows, |rows|, TokensWithin(tenant, from, from + MINUTE), TokensSince(tenant, createdAt - MINUTE));
  }

  lemma StepKeepsTokens(plan: Plan, w: World, step: Step, tenant: nat, from: Time, raised: nat)
    requires TokensSafe(plan, w, tenant, raised) && Sane(step)
    ensures TokensKept(plan, Apply(plan, w, step), tenant, from, raised + Raise(w, step, tenant))
  {
    hide Apply, All, Raise;
    assert TokensKept(plan, w, tenant, from, raised);
    RequestsMove(plan, w, step, TokensWithin(tenant, from, from + MINUTE));
    if step.SettleRequest? {
      SettlingRaises(w, step, tenant, from, from + MINUTE);
    } else if step.Commit? && In(w, step.tx, Ready) && w.txs[step.tx].kind.RequestAdmission? {
      var row := w.txs[step.tx].row;
      if row.tenant == tenant && from <= row.createdAt <= from + MINUTE {
        WithinIsSinceTokens(w.requests, tenant, from, row.createdAt);
        assert FitsTokens(plan, w, w.txs[step.tx], raised);
      }
    }
  }

  lemma {:induction false} TokensSafeInRuns(plan: Plan, w: World, steps: seq<Step>, n: nat, tenant: nat)
    requires Quiet(w) && NonNegative(w.requests) && n <= |steps|
    requires forall i :: 0 <= i < |steps| ==> Sane(steps[i])
    requires forall from :: TokensKept(plan, w, tenant, from, 0)
    ensures TokensSafe(plan, Run(plan, w, steps, n), tenant, Raised(plan, w, steps, n, tenant))
  {
    hide Apply, FitsTokens, TokensKept, Sane, NonNegative;
    if n > 0 {
      TokensSafeInRuns(plan, w, steps, n - 1, tenant);
      var before, step, raised := Run(plan, w, steps, n - 1), steps[n - 1], Raised(plan, w, steps, n - 1, tenant);
      StepKeepsExclusive(plan, before, step);
      StepKeepsNonNegative(plan, before, step);
      var after, more := Apply(plan, before, step), raised + Raise(before, step, tenant);
      hide Exclusive;
      forall id | id in after.txs && TokensPassed(after.txs[id]) && after.txs[id].row.tenant == tenant
        ensures FitsTokens(plan, after, after.txs[id], more)
      {
        StepKeepsFitsTokens(plan, before, step, id, tenant, raised);
      }
      forall from ensures TokensKept(plan, after, tenant, from, more) {
        StepKeepsTokens(plan, before, step, tenant, from, raised);
      }
    }
  }

  /** Every closed minute of created_at holds at most the token limit, plus what settlement has raised
      the tenant's requests by. */
  lemma SlidingTokenWindow(plan: Plan, w: World, steps: seq<Step>, n: nat, tenant: nat, from: Time)
    requires Quiet(w) && NonNegative(w.requests) && n <= |steps|
    requires forall i :: 0 <= i < |steps| ==> Sane(steps[i])
    requires forall f :: TokensKept(plan, w, tenant, f, 0)
    requires tenant in plan && plan[tenant].tpmLimit > 0
    ensures All(Run(plan, w, steps, n).requests, TokensWithin(tenant, from, from + MINUTE))
              <= plan[tenant].tpmLimit + Raised(plan, w, steps, n, tenant)
  {
    hide Run, Raised;
    TokensSafeInRuns(plan, w, steps, n, tenant);
    assert TokensKept(plan, Run(plan, w, steps, n), tenant, from, Raised(plan, w, steps, n, tenant));
  }
}
