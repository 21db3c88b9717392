/** The bounds that admission keeps in every run, however transactions and settlement interleave
    (internal/store/mysql/governance_store.go). */
module AdmissionSafety {
  import opened Sums
  import opened Ledger
  import opened Admission

  // ---- What one step does to the tables ----

  /** By how much a step changes a sum over the request table. */
  function RequestDelta(w: World, step: Step, weight: Weight): int {
    match step
    case Commit(id) =>
      if In(w, id, Ready) && w.txs[id].kind.RequestAdmission? then weight(w.txs[id].row) else 0
    case SettleRequest(at, u) =>
      if at < |w.requests| then weight(Settled(w.requests[at], u)) - weight(w.requests[at]) else 0
    case InsertRequest(row) => weight(row)
    case _ => 0
  }

  function AttemptDelta(w: World, step: Step, weight: Weight): int {
    match step
    case Commit(id) =>
      if In(w, id, Ready) && w.txs[id].kind.AttemptAdmission? then weight(w.txs[id].row) else 0
    case SettleAttempt(at, u) =>
      if at < |w.attempts| then weight(Settled(w.attempts[at], u)) - weight(w.attempts[at]) else 0
    case _ => 0
  }

  /** Before a commit, a transaction touches no table, no growth and no lastRead. */
  predicate SameTables(w: World, w': World) {
    w'.requests == w.requests && w'.attempts == w.attempts && w'.growth == w.growth && w'.lastRead == w.lastRead
  }

  lemma ChecksTouchNoTable(plan: Plan, w: World, id: nat)
    ensures SameTables(w, LockTaken(plan, w, id)) && SameTables(w, BudgetChecked(plan, w, id))
    ensures SameTables(w, RpmChecked(plan, w, id)) && SameTables(w, TpmChecked(plan, w, id))
    ensures SameTables(w, Aborted(w, id))
  {
    hide OverBudget, OverRpm, OverTpm;
  }

  /** Only a commit of an admitted transaction, a settlement and the unlocked insert change a table:
      every other step leaves both as they are, the rejection of an admission included. */
  lemma OnlyCommitsAndUpdates(plan: Plan, w: World, step: Step)
    ensures step.Commit? || step.SettleRequest? || step.SettleAttempt? || step.InsertRequest?
            || SameTables(w, Apply(plan, w, step))
    ensures step.Commit? && !In(w, step.tx, Ready) ==> Apply(plan, w, step) == w
  {
    hide LockTaken, BudgetChecked, RpmChecked, TpmChecked, Aborted;
    match step
    case Lock(id) => ChecksTouchNoTable(plan, w, id);
    case CheckBudget(id) => ChecksTouchNoTable(plan, w, id);
    case CheckRpm(id) => ChecksTouchNoTable(plan, w, id);
    case CheckTpm(id) => ChecksTouchNoTable(plan, w, id);
    case Rollback(id) => ChecksTouchNoTable(plan, w, id);
    case _ =>
  }

  predicate Closed(phase: Phase) {
    phase.Committed? || phase.RolledBack?
  }

  /** A step that moves transaction id moves no other, and moves it only while it is open. */
  predicate MovesOnlyOpen(w: World, w': World) {
    forall id :: id in w.txs && Closed(w.txs[id].phase) ==> id in w'.txs && w'.txs[id] == w.txs[id]
  }

  lemma OpeningMovesOnlyOpen(plan: Plan, w: World, id: nat, kind: Kind, row: Row)
    ensures MovesOnlyOpen(w, Opened(w, id, kind, row)) && MovesOnlyOpen(w, LockTaken(plan, w, id))
  {
    hide End;
    if id in w.txs {
      EndMoves(w, id, RolledBack(StoreFailed));
    }
  }

  lemma CheckingMovesOnlyOpen(plan: Plan, w: World, id: nat)
    ensures MovesOnlyOpen(w, BudgetChecked(plan, w, id))
    ensures MovesOnlyOpen(w, RpmChecked(plan, w, id)) && MovesOnlyOpen(w, TpmChecked(plan, w, id))
  {
    hide End, OverBudget, OverRpm, OverTpm;
    if id in w.txs {
      EndMoves(w, id, RolledBack(StoreFailed));
      EndMoves(w, id, RolledBack(BudgetExceeded));
      EndMoves(w, id, RolledBack(RateLimitExceeded));
      EndMoves(w, id, RolledBack(TokenLimitExceeded));
    }
  }

  lemma EndingMovesOnlyOpen(w: World, id: nat)
    ensures MovesOnlyOpen(w, Inserted(w, id)) && MovesOnlyOpen(w, Aborted(w, id))
  {
    hide End;
    if id in w.txs {
      EndMoves(w, id, RolledBack(StoreFailed));
      EndMoves(w, id, Committed);
    }
  }

  lemma StepMovesOnlyOpen(plan: Plan, w: World, step: Step)
    ensures MovesOnlyOpen(w, Apply(plan, w, step))
  {
    hide Opened, LockTaken, BudgetChecked, RpmChecked, TpmChecked, Inserted, Aborted;
    match step
    case Begin(id, kind, row) => OpeningMovesOnlyOpen(plan, w, id, kind, row);
    case Lock(id) => OpeningMovesOnlyOpen(plan, w, id, RequestAdmission, Row(0, "", "", "", false, "", 0, 0, 0, 0));
    case CheckBudget(id) => CheckingMovesOnlyOpen(plan, w, id);
    case CheckRpm(id) => CheckingMovesOnlyOpen(plan, w, id);
    case CheckTpm(id) => CheckingMovesOnlyOpen(plan, w, id);
    case Commit(id) => EndingMovesOnlyOpen(w, id);
    case Rollback(id) => EndingMovesOnlyOpen(w, id);
    case _ =>
  }

  /** A rejected admission stays rejected, and from then on none of its steps changes anything. */
  lemma {:induction false} RejectedForGood(plan: Plan, w: World, steps: seq<Step>, n: nat, id: nat)
    requires n <= |steps| && id in w.txs && w.txs[id].phase.RolledBack?
    ensures
      var after := Run(plan, w, steps, n);
      && id in after.txs && after.txs[id] == w.txs[id]
      && Apply(plan, after, Commit(id)) == after && Apply(plan, after, Lock(id)) == after
  {
    hide Apply;
    if n > 0 {
      RejectedForGood(plan, w, steps, n - 1, id);
      StepMovesOnlyOpen(plan, Run(plan, w, steps, n - 1), steps[n - 1]);
    }
    RejectedIsStuck(plan, Run(plan, w, steps, n), id);
  }

  lemma RejectedIsStuck(plan: Plan, w: World, id: nat)
    requires id in w.txs && w.txs[id].phase.RolledBack?
    ensures Apply(plan, w, Commit(id)) == w && Apply(plan, w, Lock(id)) == w
  {
  }

  lemma RequestsMove(plan: Plan, w: World, step: Step, weight: Weight)
    ensures All(Apply(plan, w, step).requests, weight) == All(w.requests, weight) + RequestDelta(w, step, weight)
  {
    hide All, LockTaken, BudgetChecked, RpmChecked, TpmChecked, Aborted;
    OnlyCommitsAndUpdates(plan, w, step);
    match step
    case Commit(id) => if In(w, id, Ready) { Appended(w.requests, w.txs[id].row, weight); }
    case SettleRequest(at, u) => if at < |w.requests| { Replaced(w.requests, at, Settled(w.requests[at], u), weight); }
    case InsertRequest(row) => Appended(w.requests, row, weight);
    case _ =>
  }

  lemma AttemptsMove(plan: Plan, w: World, step: Step, weight: Weight)
    ensures All(Apply(plan, w, step).attempts, weight) == All(w.attempts, weight) + AttemptDelta(w, step, weight)
  {
    hide All, LockTaken, BudgetChecked, RpmChecked, TpmChecked, Aborted;
    OnlyCommitsAndUpdates(plan, w, step);
    match step
    case Commit(id) => if In(w, id, Ready) { Appended(w.attempts, w.txs[id].row, weight); }
    case SettleAttempt(at, u) => if at < |w.attempts| { Replaced(w.attempts, at, Settled(w.attempts[at], u), weight); }
    case _ =>
  }

  // ---- The budget ----

  function AttemptTotal(w: World, tenant: nat): int {
    All(w.attempts, TokensOf(tenant))
  }

  /** The attempt total without what settlement has added. */
  function Admitted(w: World, tenant: nat): int {
    AttemptTotal(w, tenant) - GrowthOf(w, tenant)
  }

  /** Only a committed attempt admission changes Admitted, by its prompt. */
  lemma AdmittedMoves(plan: Plan, w: World, step: Step, tenant: nat)
    requires Exclusive(w)
    ensures
      Admitted(Apply(plan, w, step), tenant) == Admitted(w, tenant) +
      if step.Commit? && In(w, step.tx, Ready) && w.txs[step.tx].kind.AttemptAdmission? && w.txs[step.tx].row.tenant == tenant
      then w.txs[step.tx].row.promptTokens else 0
  {
    hide All, LockTaken, BudgetChecked, RpmChecked, TpmChecked, Aborted, End;
    AttemptsMove(plan, w, step, TokensOf(tenant));
    OnlyCommitsAndUpdates(plan, w, step);
    if step.Commit? && In(w, step.tx, Ready) {
      EndMoves(w, step.tx, Committed);
    }
  }

  lemma LastReadMoves(plan: Plan, w: World, step: Step, tenant: nat)
    ensures
      var w' := Apply(plan, w, step);
      tenant in w'.lastRead ==>
        if step.Commit? && In(w, step.tx, Ready) && w.txs[step.tx].row.tenant == tenant
        then w'.lastRead[tenant] == w.txs[step.tx].growthAtRead
        else tenant in w.lastRead && w'.lastRead[tenant] == w.lastRead[tenant]
  {
    hide LockTaken, BudgetChecked, RpmChecked, TpmChecked, Aborted, End;
    OnlyCommitsAndUpdates(plan, w, step);
  }

  /** A transaction past its budget check still fits. */
  predicate FitsBudget(plan: Plan, w: World, tx: Tx) {
    tx.row.tenant in plan && plan[tx.row.tenant].tokenBudget > 0 ==>
      Admitted(w, tx.row.tenant) + tx.growthAtRead + tx.row.promptTokens <= plan[tx.row.tenant].tokenBudget
  }

  predicate WithinBudget(plan: Plan, w: World, tenant: nat) {
    tenant in w.lastRead && tenant in plan && plan[tenant].tokenBudget > 0 ==>
      Admitted(w, tenant) + w.lastRead[tenant] <= plan[tenant].tokenBudget
  }

  ghost predicate BudgetSafe(plan: Plan, w: World) {
    && Exclusive(w)
    && (forall id :: id in w.txs && Passed(w.txs[id].phase) ==> FitsBudget(plan, w, w.txs[id]))
    && (forall tenant :: WithinBudget(plan, w, tenant))
  }

  lemma CommitKeepsOthersFit(plan: Plan, w: World, step: Step, id: nat)
    requires BudgetSafe(plan, w) && id in Apply(plan, w, step).txs && Passed(Apply(plan, w, step).txs[id].phase)
    ensures FitsBudget(plan, Apply(plan, w, step), Apply(plan, w, step).txs[id])
  {
    hide Apply, Admitted, OverBudget, GrowthOf;
    PassedByCheck(plan, w, step, id);
    AdmittedMoves(plan, w, step, w.txs[id].row.tenant);
    if step == CheckBudget(id) && !Passed(w.txs[id].phase) {
      CheckedFits(plan, w, Apply(plan, w, step).txs[id], id);
    }
  }

  lemma CheckedFits(plan: Plan, w: World, tx: Tx, id: nat)
    requires BudgetJustPassed(plan, w, tx, id)
    ensures FitsBudget(plan, w, tx)
  {
  }

  lemma CommitStaysWithinBudget(plan: Plan, w: World, step: Step, tenant: nat)
    requires BudgetSafe(plan, w)
    ensures WithinBudget(plan, Apply(plan, w, step), tenant)
  {
    hide Apply, Admitted;
    AdmittedMoves(plan, w, step, tenant);
    LastReadMoves(plan, w, step, tenant);
    assert WithinBudget(plan, w, tenant);
  }

  lemma {:induction false} BudgetSafeInRuns(plan: Plan, w: World, steps: seq<Step>, n: nat)
    requires Quiet(w) && n <= |steps|
    ensures BudgetSafe(plan, Run(plan, w, steps, n))
  {
    hide Apply, Exclusive, FitsBudget, WithinBudget;
    if n == 0 {
      QuietIsSafe(plan, w);
    } else {
      BudgetSafeInRuns(plan, w, steps, n - 1);
      var before, step := Run(plan, w, steps, n - 1), steps[n - 1];
      StepKeepsExclusive(plan, before, step);
      var after := Apply(plan, before, step);
      forall id | id in after.txs && Passed(after.txs[id].phase) ensures FitsBudget(plan, after, after.txs[id]) {
        CommitKeepsOthersFit(plan, before, step, id);
      }
      forall tenant ensures WithinBudget(plan, after, tenant) {
        CommitStaysWithinBudget(plan, before, step, tenant);
      }
    }
  }

  lemma QuietIsSafe(plan: Plan, w: World)
    requires Quiet(w)
    ensures BudgetSafe(plan, w)
  {
  }

  /** Budget safety: in every run, the attempt total of a tenant that has been admitted exceeds its
      budget by no more than what settlement has added since the tenant's last admitting read. */
  lemma BudgetSafety(plan: Plan, w: World, steps: seq<Step>, n: nat, tenant: nat)
    requires Quiet(w) && n <= |steps|
    requires tenant in plan && plan[tenant].tokenBudget > 0
    ensures
      var after := Run(plan, w, steps, n);
      tenant in after.lastRead ==>
        AttemptTotal(after, tenant) <= plan[tenant].tokenBudget + (GrowthOf(after, tenant) - after.lastRead[tenant])
  {
    hide Run, AttemptTotal, GrowthOf;
    BudgetSafeInRuns(plan, w, steps, n);
    assert WithinBudget(plan, Run(plan, w, steps, n), tenant);
  }

  // ---- The request rate ----

  /** Fewer than the limit in the minute before a transaction past its check. */
  predicate FitsRate(plan: Plan, w: World, tx: Tx) {
    tx.row.tenant in plan && plan[tx.row.tenant].rpmLimit > 0 ==>
      All(w.requests, RequestsSince(tx.row.tenant, tx.row.createdAt - MINUTE)) < plan[tx.row.tenant].rpmLimit
  }

  predicate WindowKept(plan: Plan, w: World, tenant: nat, from: Time) {
    tenant in plan && plan[tenant].rpmLimit > 0 ==>
      All(w.requests, RequestsWithin(tenant, from, from + MINUTE)) <= plan[tenant].rpmLimit
  }

  ghost predicate RateSafe(plan: Plan, w: World) {
    && Exclusive(w)
    && (forall id :: id in w.txs && RatePassed(w.txs[id]) ==> FitsRate(plan, w, w.txs[id]))
    && (forall tenant, from :: WindowKept(plan, w, tenant, from))
  }

  /** A request past its rate check was so before, or is just through it. */
  lemma RatePassedByCheck(plan: Plan, w: World, step: Step, id: nat)
    ensures
      var w' := Apply(plan, w, step);
      id in w'.txs && RatePassed(w'.txs[id]) ==>
        && id in w.txs && w'.txs[id].row == w.txs[id].row && w'.txs[id].kind == w.txs[id].kind && !Commits(w, step, id)
        && (RatePassed(w.txs[id])
            || (&& step == CheckRpm(id) && w.txs[id].row.tenant in plan
                && !OverRpm(plan[w.txs[id].row.tenant], w.requests, w.txs[id].row)))
  {
    hide OverBudget, OverRpm, OverTpm, Opened, LockTaken, BudgetChecked, RpmChecked, TpmChecked, Inserted, Aborted, GrowthOf;
    match step
    case Begin(i, kind, row) => OpeningPassesNobody(w, i, kind, row);
    case Lock(i) => LockingPassesNobody(plan, w, i);
    case CheckBudget(i) => BudgetCheckPasses(plan, w, i, id);
    case CheckRpm(i) => RpmCheckPasses(plan, w, i, id);
    case CheckTpm(i) => TpmCheckPasses(plan, w, i, id);
    case Commit(i) => EndingPassesNobody(w, i);
    case Rollback(i) => EndingPassesNobody(w, i);
    case _ =>
  }

  lemma StepKeepsFitsRate(plan: Plan, w: World, step: Step, id: nat)
    requires RateSafe(plan, w) && !step.InsertRequest?
    requires id in Apply(plan, w, step).txs && RatePassed(Apply(plan, w, step).txs[id])
    ensures FitsRate(plan, Apply(plan, w, step), Apply(plan, w, step).txs[id])
  {
    hide Apply, All;
    RatePassedByCheck(plan, w, step, id);
    var row := w.txs[id].row;
    RequestsMove(plan, w, step, RequestsSince(row.tenant, row.createdAt - MINUTE));
  }

  lemma WithinIsSince(rows: seq<Row>, tenant: nat, from: Time, createdAt: Time)
    requires from <= createdAt <= from + MINUTE
    ensures All(rows, RequestsWithin(tenant, from, from + MINUTE)) <= All(rows, RequestsSince(tenant, createdAt - MINUTE))
  {
    SumAtMost(rows, |rows|, RequestsWithin(tenant, from, from + MINUTE), RequestsSince(tenant, createdAt - MINUTE));
  }

  lemma StepKeepsWindow(plan: Plan, w: World, step: Step, tenant: nat, from: Time)
    requires RateSafe(plan, w) && !step.InsertRequest?
    ensures WindowKept(plan, Apply(plan, w, step), tenant, from)
  {
    hide Apply, All;
    assert WindowKept(plan, w, tenant, from);
    RequestsMove(plan, w, step, RequestsWithin(tenant, from, from + MINUTE));
    if step.Commit? && In(w, step.tx, Ready) && w.txs[step.tx].kind.RequestAdmission? {
      var row := w.txs[step.tx].row;
      if row.tenant == tenant && from <= row.createdAt <= from + MINUTE {
        WithinIsSince(w.requests, tenant, from, row.createdAt);
        assert FitsRate(plan, w, w.txs[step.tx]);
      }
    }
  }

  predicate AllAtomic(steps: seq<Step>) {
    forall i :: 0 <= i < |steps| ==> !steps[i].InsertRequest?
  }

  lemma {:induction false} RateSafeInRuns(plan: Plan, w: World, steps: seq<Step>, n: nat)
    requires Quiet(w) && n <= |steps| && AllAtomic(steps)
    requires forall tenant, from :: WindowKept(plan, w, tenant, from)
    ensures RateSafe(plan, Run(plan, w, steps, n))
  {
    hide Apply, FitsRate, WindowKept;
    if n > 0 {
      RateSafeInRuns(plan, w, steps, n - 1);
      var before, step := Run(plan, w, steps, n - 1), steps[n - 1];
      StepKeepsExclusive(plan, before, step);
      var after := Apply(plan, before, step);
      hide Exclusive;
      forall id | id in after.txs && RatePassed(after.txs[id]) ensures FitsRate(plan, after, after.txs[id]) {
        StepKeepsFitsRate(plan, before, step, id);
      }
      forall tenant, from ensures WindowKept(plan, after, tenant, from) {
        StepKeepsWindow(plan, before, step, tenant, from);
      }
    }
  }

  /** A true sliding window: when all admissions are transactions, every closed minute of created_at
      holds at most the limit, in whatever order the transactions got their locks. */
  lemma SlidingWindow(plan: Plan, w: World, steps: seq<Step>, n: nat, tenant: nat, from: Time)
    requires Quiet(w) && n <= |steps| && AllAtomic(steps)
    requires forall t, f :: WindowKept(plan, w, t, f)
    requires tenant in plan && plan[tenant].rpmLimit > 0
    ensures All(Run(plan, w, steps, n).requests, RequestsWithin(tenant, from, from + MINUTE)) <= plan[tenant].rpmLimit
  {
    hide Run;
    RateSafeInRuns(plan, w, steps, n);
    assert WindowKept(plan, Run(plan, w, steps, n), tenant, from);
  }
}
